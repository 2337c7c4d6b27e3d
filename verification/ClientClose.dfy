/**
  The staged close of a connection handle: argument pages, descriptor, then the shared region.  An
  attempt stops at the first stage that fails, and the caller may try again.
*/
module ClientClose {

  /** What the handle still holds, and how often each resource has been given back. */
  datatype Held = Held(client: bool, args: bool, fd: bool, munmaps: nat, closes: nat, regionCloses: nat, frees: nat)

  /** Who calls, and what the kernel and the region library answer. */
  datatype Attempt = Attempt(sameThread: bool, munmapOk: bool, closeOk: bool, regionOk: bool)

  datatype Outcome = Outcome(held: Held, ok: bool)

  function UnmapStage(h: Held, a: Attempt): (o: Outcome) {
    if !(h.client && h.args) then Outcome(h, true)
    else if !a.munmapOk then Outcome(h, false)
    else Outcome(h.(args := false, munmaps := h.munmaps + 1), true)
  }

  /** A descriptor counts as gone even when close reports an error. */
  function CloseStage(h: Held, a: Attempt): (o: Outcome) {
    if !h.fd then Outcome(h, true)
    else Outcome(h.(fd := false, closes := h.closes + 1), a.closeOk)
  }

  function RegionStage(h: Held, a: Attempt): (o: Outcome) {
    if !h.client then Outcome(h, true)
    else if !a.regionOk then Outcome(h, false)
    else Outcome(h.(client := false, regionCloses := h.regionCloses + 1, frees := h.frees + 1), true)
  }

  function CloseOnce(h: Held, a: Attempt): (o: Outcome) {
    if h.client && !a.sameThread then Outcome(h, false)
    else
      var o := UnmapStage(h, a);
      if !o.ok then o
      else
        var p := CloseStage(o.held, a);
        if !p.ok then p else RegionStage(p.held, a)
  }

  function AfterAttempts(h: Held, attempts: seq<Attempt>): (r: Held) {
    if attempts == [] then h
    else CloseOnce(AfterAttempts(h, attempts[..|attempts| - 1]), attempts[|attempts| - 1]).held
  }

  function Count(b: bool): (n: nat) { if b then 1 else 0 }

  /**
    What bind leaves in a handle, however far it came: nothing, the client record, also the descriptor, or also the
    argument pages, and nothing given back yet.
  */
  predicate LeftByBind(h: Held) {
    h.munmaps == h.closes == h.regionCloses == h.frees == 0 && (h.args ==> h.fd) && (h.fd ==> h.client)
  }

  /** Each resource the handle started with is still held or has been given back exactly once, in order. */
  predicate Balanced(start: Held, h: Held) {
    && h.munmaps + Count(h.args) == Count(start.args)
    && h.closes + Count(h.fd) == Count(start.fd)
    && h.regionCloses + Count(h.client) == Count(start.client) && h.frees == h.regionCloses
    && (h.fd ==> h.client) && (h.args ==> h.fd)
  }

  function AllReleased(start: Held): (h: Held) {
    Held(false, false, false, Count(start.args), Count(start.fd), Count(start.client), Count(start.client))
  }

  lemma StagesKeepBalance(start: Held, h: Held, a: Attempt)
    requires Balanced(start, h)
    ensures Balanced(start, UnmapStage(h, a).held) && (UnmapStage(h, a).ok ==> !UnmapStage(h, a).held.args)
    ensures !h.args ==> Balanced(start, CloseStage(h, a).held) && !CloseStage(h, a).held.fd
    ensures !h.fd ==> Balanced(start, RegionStage(h, a).held) && (RegionStage(h, a).ok <==> !RegionStage(h, a).held.client)
  {
  }

  lemma AttemptKeepsBalance(start: Held, h: Held, a: Attempt)
    requires Balanced(start, h)
    ensures Balanced(start, CloseOnce(h, a).held) && (CloseOnce(h, a).ok <==> !CloseOnce(h, a).held.client)
  {
    StagesKeepBalance(start, h, a);
    var o := UnmapStage(h, a);
    StagesKeepBalance(start, o.held, a);
    var p := CloseStage(o.held, a);
    if o.ok { StagesKeepBalance(start, p.held, a); }
  }

  /**
    Any number of attempts, from any thread and with any failures, release each resource at most once
    and never the region before argument pages and descriptor.
  */
  lemma {:induction false} RetriesReleaseOnce(start: Held, attempts: seq<Attempt>)
    requires LeftByBind(start)
    ensures Balanced(start, AfterAttempts(start, attempts))
  {
    if attempts != [] {
      var before := attempts[..|attempts| - 1];
      RetriesReleaseOnce(start, before);
      AttemptKeepsBalance(start, AfterAttempts(start, before), attempts[|attempts| - 1]);
    }
  }

  /** Success means that every call of the attempt succeeded; from another thread nothing is touched. */
  lemma FailureIsReported(h: Held, a: Attempt)
    ensures CloseOnce(h, a).ok ==>
      (h.client ==> a.sameThread && a.regionOk) && (h.client && h.args ==> a.munmapOk) && (h.fd ==> a.closeOk)
    ensures h.client && !a.sameThread ==> CloseOnce(h, a) == Outcome(h, false)
  {
  }

  /** An attempt reports success exactly when, after it, everything has been released once. */
  lemma SuccessMeansAllReleased(start: Held, attempts: seq<Attempt>, h: Held, a: Attempt)
    requires LeftByBind(start) && h == AfterAttempts(start, attempts)
    ensures CloseOnce(h, a).ok <==> CloseOnce(h, a).held == AllReleased(start)
    ensures a.sameThread && a.munmapOk && a.closeOk && a.regionOk ==> CloseOnce(h, a).ok
  {
    RetriesReleaseOnce(start, attempts);
    Verdict(start, h, a);
  }

  lemma Verdict(start: Held, h: Held, a: Attempt)
    requires Balanced(start, h)
    ensures CloseOnce(h, a).ok <==> CloseOnce(h, a).held == AllReleased(start)
    ensures a.sameThread && a.munmapOk && a.closeOk && a.regionOk ==> CloseOnce(h, a).ok
  {
    AttemptKeepsBalance(start, h, a);
    ReleasedIff(start, CloseOnce(h, a).held);
    GoodAttempt(h, a);
  }

  lemma ReleasedIff(start: Held, h: Held)
    requires Balanced(start, h)
    ensures h == AllReleased(start) <==> !h.client
  {
  }

  lemma GoodAttempt(h: Held, a: Attempt)
    ensures a.sameThread && a.munmapOk && a.closeOk && a.regionOk ==> CloseOnce(h, a).ok
  {
  }

  /** The handle as the library keeps it. */
  class Connection {
    var client: bool
    var args: bool
    var fd: bool
    ghost var counts: Held

    ghost function Value(): (h: Held)
      reads this
    {
      counts.(client := client, args := args, fd := fd)
    }

    /** The handle as bind leaves it. */
    constructor (start: Held)
      requires LeftByBind(start)
      ensures Value() == start
    {
      client, args, fd, counts := start.client, start.args, start.fd, start;
    }

    method CloseChecked(a: Attempt) returns (ok: bool)
      modifies this
      ensures Value() == old(CloseOnce(Value(), a)).held && ok == old(CloseOnce(Value(), a)).ok
    {
      if client && !a.sameThread { return false; }
      if client && args {
        if !a.munmapOk { return false; }
        args, counts := false, counts.(munmaps := counts.munmaps + 1);
      }
      if fd {
        fd, counts := false, counts.(closes := counts.closes + 1);
        if !a.closeOk { return false; }
      }
      if client {
        if !a.regionOk { return false; }
        client := false;
        counts := counts.(regionCloses := counts.regionCloses + 1, frees := counts.frees + 1);
      }
      return true;
    }
  }
}
