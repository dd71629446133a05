/** The review store (plugins/review/store.go, plugins/review/handlers.go): a review is decided at most once. */
module Reviews {
  import opened Wrappers

  datatype Status = Pending | Approved | ChangesRequested

  datatype Review = Review(id: string, context: string, agentRun: string, diff: string, status: Status,
                           reviewer: string, notes: string, results: seq<bool>)

  datatype Op = Requested(review: Review) | Decided(review: Review)

  datatype Error = Invalid | NotFound | AlreadyDecided | Io

  function Apply(reviews: map<string, Review>, op: Op): map<string, Review> {
    reviews[op.review.id := op.review]
  }

  function Replay(log: seq<Op>): map<string, Review> {
    if log == [] then map[] else Apply(Replay(log[..|log| - 1]), log[|log| - 1])
  }

  /** A record one accepted request appends. */
  ghost predicate Accepted(reviews: map<string, Review>, op: Op) {
    match op
    case Requested(r) => r.id !in reviews && r.status == Pending
    case Decided(r) =>
      && r.id in reviews && reviews[r.id].status == Pending && r.status != Pending
      && r == reviews[r.id].(status := r.status, reviewer := r.reviewer, notes := r.notes, results := r.results)
  }

  ghost predicate History(log: seq<Op>) {
    log != [] ==> History(log[..|log| - 1]) && Accepted(Replay(log[..|log| - 1]), log[|log| - 1])
  }

  class Store {
    var log: seq<Op>
    var byId: map<string, Review>

    ghost predicate Valid()
      reads this
    {
      History(log) && Replay(log) == byId && forall id | id in byId :: byId[id].id == id
    }

    constructor ()
      ensures Valid() && log == []
    {
      log, byId := [], map[];
    }

    method Append(op: Op, ioOk: bool) returns (ok: bool)
      requires Valid() && Accepted(byId, op)
      modifies this
      ensures Valid() && ok == ioOk
      ensures log == if ok then old(log) + [op] else old(log)
      ensures byId == if ok then Apply(old(byId), op) else old(byId)
    {
      if ioOk {
        assert (log + [op])[..|log|] == log;
        log, byId := log + [op], byId[op.review.id := op.review];
      }
      ok := ioOk;
    }

    /** requestHandler: context and diff are required; the new review is pending. */
    method Request(context: string, agentRun: string, diff: string, freshId: string, ioOk: bool)
      returns (r: Result<Review, Error>)
      requires Valid() && freshId !in byId
      modifies this
      ensures Valid()
      ensures if context == "" || diff == "" then r == Err(Invalid)
              else if !ioOk then r == Err(Io)
              else
                && r == Ok(Review(freshId, context, agentRun, diff, Pending, "", "", []))
                && log == old(log) + [Requested(r.value)] && byId == old(byId)[freshId := r.value]
      ensures r.Err? ==> log == old(log) && byId == old(byId)
    {
      if context == "" || diff == "" {
        return Err(Invalid);
      }
      var review := Review(freshId, context, agentRun, diff, Pending, "", "", []);
      var ok := Append(Requested(review), ioOk);
      r := if ok then Ok(review) else Err(Io);
    }

    /** decideHandler and RecordDecided: only a pending review takes a decision, and everything else of it stays. */
    method Decide(id: string, decision: Status, reviewer: string, notes: string, results: seq<bool>, ioOk: bool)
      returns (r: Result<Review, Error>)
      requires Valid()
      modifies this
      ensures Valid()
      ensures if id == "" || decision == Pending then r == Err(Invalid)
              else if id !in old(byId) then r == Err(NotFound)
              else if old(byId)[id].status != Pending then r == Err(AlreadyDecided)
              else if !ioOk then r == Err(Io)
              else
                && r == Ok(old(byId)[id].(status := decision, reviewer := reviewer, notes := notes, results := results))
                && log == old(log) + [Decided(r.value)] && byId == old(byId)[id := r.value]
      ensures r.Err? ==> log == old(log) && byId == old(byId)
    {
      if id == "" || decision == Pending {
        return Err(Invalid);
      }
      if id !in byId {
        return Err(NotFound);
      }
      if byId[id].status != Pending {
        return Err(AlreadyDecided);
      }
      var review := byId[id].(status := decision, reviewer := reviewer, notes := notes, results := results);
      var ok := Append(Decided(review), ioOk);
      r := if ok then Ok(review) else Err(Io);
    }
  }

  /** A decided review never changes again; an undecided one keeps its diff. */
  lemma {:induction false} DecidedForever(log: seq<Op>, n: nat, id: string)
    requires History(log) && n <= |log| && id in Replay(log[..n])
    ensures id in Replay(log) && Replay(log)[id].diff == Replay(log[..n])[id].diff
    ensures Replay(log[..n])[id].status != Pending ==> Replay(log)[id] == Replay(log[..n])[id]
    decreases |log|
  {
    if n == |log| {
      assert log[..n] == log;
    } else {
      assert log[..|log| - 1][..n] == log[..n];
      DecidedForever(log[..|log| - 1], n, id);
    }
  }
}
