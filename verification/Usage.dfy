/** Token usage as providers report it (internal/types/chat.go). */
module ChatTypes {
  datatype Usage = Usage(prompt: int, completion: int, total: int)
}
