/** What each request does, recorded as it does it. */
module Histories {
  import opened Options
  import opened ChatTypes
  import opened Providers

  /**
    What the outside world answers on one attempt: whether the endpoint's
    provider is registered, how the call ends, whether the request's context
    is done after it, and whether the following sleep is cut short.
   */
  datatype Answer = Answer(registered: bool, err: Option<CallError>, usage: Option<Usage>, latency: int,
                           ctxDone: bool, sleepCut: bool)

  datatype Event =
    | Picked(id: string)
    | Called(id: string, answer: Answer)
    | ReportedOn(id: string, result: CallResult)
    | Slept(delay: int)

  /** One log per request, which only the methods that act for it add to. */
  class History {
    ghost var logs: map<nat, seq<Event>>

    ghost constructor ()
      ensures logs == map[]
    {
      logs := map[];
    }

    ghost function Of(who: nat): seq<Event>
      reads this
    {
      if who in logs then logs[who] else []
    }

    ghost method Add(who: nat, e: Event)
      modifies this
      ensures Of(who) == old(Of(who)) + [e]
      ensures forall other :: other != who ==> Of(other) == old(Of(other))
    {
      logs := logs[who := Of(who) + [e]];
    }
  }
}
