/** What a Replace of the endpoint list does to the pool's indexes, breakers and credits. */
module PoolReplace {
  import opened Options
  import opened Collections
  import opened Sums
  import opened CircuitBreaker
  import opened Providers
  import opened EndpointPool

  ghost predicate UniqueIDs(es: seq<Endpoint>) {
    forall i, j :: 0 <= i < j < |es| ==> es[i].id != es[j].id
  }

  /**
    Replace accepts a list that names an ID twice. The two indexes then hold
    different members: they agree exactly when the IDs are unique.
   */
  lemma AgreementIffUnique(ms: seq<Member>, es: seq<Endpoint>)
    requires Mirrors(ms, es)
    ensures Agree(ByModel(ms), ByID(ms)) <==> UniqueIDs(es)
  {
    hide ByModel, ByID, OfModel;
    IndexMeaning(ms);
    var byModel, byID := ByModel(ms), ByID(ms);
    if Agree(byModel, byID) {
      forall i, j | 0 <= i < j < |es| ensures es[i].id != es[j].id {
        Listed(ms, i);
        Listed(ms, j);
      }
    }
    if UniqueIDs(es) {
      forall model: string, m: Member | model in byModel && m in byModel[model] ensures m.ep.id in byID && byID[m.ep.id] == m {
        var i :| 0 <= i < |ms| && ms[i] == m;
        assert LastWithID(ms, byID[m.ep.id]);
        var k :| 0 <= k < |ms| && ms[k] == byID[m.ep.id];
        assert es[i].id == es[k].id;
      }
    }
  }

  lemma Listed(ms: seq<Member>, i: nat)
    requires i < |ms|
    ensures ms[i].ep.model in ByModel(ms) && ms[i] in ByModel(ms)[ms[i].ep.model]
  {
    IndexMeaning(ms);
    assert ms[i] in OfModel(ms, ms[i].ep.model);
  }

  ghost function IDs(ms: seq<Member>): (ids: seq<string>)
    ensures |ids| == |ms| && forall i :: 0 <= i < |ms| ==> ids[i] == ms[i].ep.id
  {
    seq(|ms|, i requires 0 <= i < |ms| => ms[i].ep.id)
  }

  /** Members of one model that agree with the ID index have distinct IDs. */
  lemma AgreeMeansDistinctIDs(byModel: map<string, seq<Member>>, byID: map<string, Member>, model: string)
    requires model in byModel && NoDuplicates(byModel[model]) && Agree(byModel, byID)
    ensures NoDuplicates(IDs(byModel[model]))
  {
    var ms := byModel[model];
    forall i, j | 0 <= i < j < |ms| ensures ms[i].ep.id != ms[j].ep.id {
      assert ms[i] in ms && ms[j] in ms;
    }
  }

  /** Two member lists over the same IDs, with each ID's credit carried over, hold the same total credit. */
  lemma SameTotal(a: seq<Member>, b: seq<Member>, ca: seq<int>, cb: seq<int>, f: map<string, int>)
    requires |ca| == |a| && |cb| == |b|
    requires NoDuplicates(IDs(a)) && NoDuplicates(IDs(b)) && Elements(IDs(a)) == Elements(IDs(b)) <= f.Keys
    requires forall i :: 0 <= i < |a| ==> a[i].ep.id in f && ca[i] == f[a[i].ep.id]
    requires forall i :: 0 <= i < |b| ==> b[i].ep.id in f && cb[i] == f[b[i].ep.id]
    ensures Sum(ca) == Sum(cb)
  {
    SumOverKeys(IDs(a), IDs(b), f);
    assert Values(IDs(a), f) == ca;
    assert Values(IDs(b), f) == cb;
  }

  /** The members of a list are found under their IDs, with the credit known for the ID. */
  ghost predicate KnownCredits(ms: seq<Member>, c: seq<int>, known: map<string, Standing>) {
    && |c| == |ms|
    && NoDuplicates(IDs(ms))
    && forall i :: 0 <= i < |ms| ==> ms[i].ep.id in known && c[i] == known[ms[i].ep.id].current
  }

  lemma KnownCreditsAgree(a: seq<Member>, b: seq<Member>, ca: seq<int>, cb: seq<int>, known: map<string, Standing>)
    requires KnownCredits(a, ca, known) && KnownCredits(b, cb, known)
    requires Elements(IDs(a)) == Elements(IDs(b))
    ensures Sum(ca) == Sum(cb)
  {
    var f := map id | id in known :: known[id].current;
    forall id | id in Elements(IDs(a)) ensures id in f {
      var i :| 0 <= i < |a| && IDs(a)[i] == id;
    }
    SameTotal(a, b, ca, cb, f);
  }

  lemma IDsOfIsElements(p: Pool, model: string)
    ensures Elements(IDs(p.ListOf(model))) == p.IDsOf(model)
  {
    var ms := p.ListOf(model);
    forall id | id in p.IDsOf(model) ensures id in IDs(ms) {
      var m :| m in ms && m.ep.id == id;
      var i :| 0 <= i < |ms| && ms[i] == m;
      assert IDs(ms)[i] == id;
    }
    forall id | id in Elements(IDs(ms)) ensures id in p.IDsOf(model) {
      var i :| 0 <= i < |ms| && IDs(ms)[i] == id;
      assert ms[i] in ms;
    }
  }

  lemma PoolKnowsItsCredits(p: Pool, model: string)
    requires p.Valid() && p.Indexed()
    ensures KnownCredits(p.ListOf(model), Credits(p.ListOf(model)), p.Known())
  {
    var ms := p.ListOf(model);
    if model in p.byModel {
      AgreeMeansDistinctIDs(p.byModel, p.byID, model);
      forall i | 0 <= i < |ms| ensures ms[i].ep.id in p.byID && p.byID[ms[i].ep.id] == ms[i] {
        assert ms[i] in p.byModel[model];
      }
    }
  }

  /**
    One tick of the endpoint refresh: an empty listing is ignored, any other
    replaces the pool. Known IDs keep breaker, health, credit and latency, and
    a model served by the same IDs as before keeps its total credit.
   */
  method Refresh(p: Pool, rows: seq<Endpoint>) returns (err: Option<Invalid>, ghost made: seq<Member>)
    requires p.Valid() && p.Indexed()
    modifies p
    ensures p.Valid()
    ensures err.None? <==> forall e :: e in rows ==> Complete(e)
    ensures err.Some? || rows == [] ==> p.byModel == old(p.byModel) && p.byID == old(p.byID)
    ensures err.None? && rows != [] ==> Mirrors(made, rows) && p.byModel == ByModel(made) && p.byID == ByID(made)
    ensures UniqueIDs(rows) ==> p.Indexed()
    ensures forall id :: id in p.byID && id in old(p.byID) ==>
      && p.byID[id].breaker == old(p.byID[id].breaker) && p.byID[id].health == old(p.byID[id].health)
      && p.byID[id].current == old(p.byID[id].current) && p.byID[id].latency == old(p.byID[id].latency)
    ensures forall id :: id in p.byID && id !in old(p.byID) ==>
      && p.byID[id].breaker.View() == State(Closed, 0, 0, false) && p.byID[id].health == Healthy
      && p.byID[id].current == 0 && p.byID[id].latency == 0
    ensures UniqueIDs(rows) ==> forall model :: p.IDsOf(model) == old(p.IDsOf(model)) ==>
      p.CreditOf(model) == old(p.CreditOf(model))
  {
    hide ByModel, ByID, OfModel, Credits, Sum, KnownCredits, IDs, Elements, Mirrors, FirstInvalid, IDIndex, ModelIndex;
    made := [];
    if |rows| == 0 {
      return None, made;
    }
    ghost var known := p.Known();
    forall model ensures KnownCredits(p.ListOf(model), Credits(p.ListOf(model)), known)
                      && Elements(IDs(p.ListOf(model))) == p.IDsOf(model) {
      PoolKnowsItsCredits(p, model);
      IDsOfIsElements(p, model);
    }
    err, made := p.Replace(rows);
    if err.None? {
      AgreementIffUnique(made, rows);
      IndexedCarryOn(p.byID, made, known);
      if UniqueIDs(rows) {
        forall model | p.IDsOf(model) == old(p.IDsOf(model)) ensures p.CreditOf(model) == old(p.CreditOf(model)) {
          PoolKnowsItsCredits(p, model);
          IDsOfIsElements(p, model);
          CreditsStillKnown(p.ListOf(model), Credits(p.ListOf(model)), p.Known(), known, old(p.ListOf(model)), old(Credits(p.ListOf(model))));
          KnownCreditsAgree(p.ListOf(model), old(p.ListOf(model)), Credits(p.ListOf(model)), old(Credits(p.ListOf(model))), known);
        }
      }
    }
  }

  lemma IndexedCarryOn(byID: map<string, Member>, made: seq<Member>, known: map<string, Standing>)
    requires byID == ByID(made) && forall m :: m in made ==> CarriesOn(m, known)
    ensures forall id :: id in byID ==> byID[id] in made && CarriesOn(byID[id], known) && byID[id].ep.id == id
    ensures forall id :: id in byID && id in known ==> StandingOf(byID[id]) == known[id]
  {
    IndexMeaning(made);
    forall id | id in byID ensures byID[id] in made && CarriesOn(byID[id], known) && byID[id].ep.id == id {
      assert byID[id].ep.id == id && LastWithID(made, byID[id]);
      assert byID[id] in made && CarriesOn(byID[id], known);
    }
  }

  /** Credits known after the replacement were known before it, over the same IDs. */
  lemma CreditsStillKnown(b: seq<Member>, cb: seq<int>, after: map<string, Standing>, before: map<string, Standing>,
                          a: seq<Member>, ca: seq<int>)
    requires KnownCredits(b, cb, after) && KnownCredits(a, ca, before)
    requires Elements(IDs(a)) == Elements(IDs(b))
    requires forall id :: id in after && id in before ==> after[id] == before[id]
    ensures KnownCredits(b, cb, before)
  {
    forall i | 0 <= i < |b| ensures b[i].ep.id in before {
      assert IDs(b)[i] in Elements(IDs(a));
      var j :| 0 <= j < |a| && IDs(a)[j] == IDs(b)[i];
    }
  }

  /**
    A report that looked its member up before a replacement and acts after it.
    If the ID was retained, the event still reaches the breaker in use, but the
    latency goes to the retired member and is lost.
   */
  method ReportAcrossReplace(p: Pool, id: string, result: CallResult, rows: seq<Endpoint>) returns (err: Option<Invalid>)
    requires p.Valid() && id in p.byID
    modifies p, p.clock, p.byID[id], p.byID[id].breaker
    ensures err.None? && id in p.byID ==>
      var b := p.byID[id].breaker; b == old(p.byID[id].breaker) && b.View() == Reported(b.cfg, old(b.View()), result, p.clock.now)
    ensures err.None? && id in p.byID ==> p.byID[id] != old(p.byID[id]) && p.byID[id].latency == old(p.byID[id].latency)
  {
    hide ByModel, ByID, Mirrors, FirstInvalid, WellFormed, CarriesOn, Reported, Smoothed;
    var m := p.Lookup(id);
    ghost var made;
    err, made := p.Replace(rows);
    if err.None? {
      IndexedCarryOn(p.byID, made, old(p.Known()));
    }
    p.Record(m, result);
  }
}
