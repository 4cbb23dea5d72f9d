/** What the driver is told about a request, by how its handler completed. Stated over the labels of a
    run and the commit events of a tag, for both queues. */
module CommittedResults {
  import opened Options
  import opened Uapi
  import opened Seqs
  import TM = TagMachine
  import B = BatchQueue
  import R = BatchRuns
  import S = SimpleQueue

  /** The committed result: the handler's value, or the negated code of its error, with EIO (5) for an
      exception without a code and ECANCELED (125) for a stop. */
  predicate ReportsResult(o: Outcome, res: int) {
    match o
    case Value(v) => res == v
    case ZonedValue(v, _) => res == v
    case ErrorCode(code) => res == -code
    case SystemError(code) => res == -code
    case OtherException => res == -5
    case Stopped => res == -125
  }

  /** A zone append (operation 13) also reports an LBA: the handler's if it gave one, else 0. */
  predicate Reports(q: Request, o: Outcome, c: TM.Committed) {
    && ReportsResult(o, c.res)
    && c.lba == if q.op == 13 then Some(if o.ZonedValue? then o.lba else 0) else None
  }

  /** The commits answer the deliveries in order, each with the outcome of its own handler; at most one
      delivery has not been answered yet. */
  ghost predicate Answered(qs: seq<Request>, os: seq<Outcome>, cs: seq<TM.Committed>) {
    && |cs| <= |os| <= |qs| <= |cs| + 1
    && forall i :: 0 <= i < |cs| ==> Reports(qs[i], os[i], cs[i])
  }

  lemma WrapReports(q: Request, o: Outcome)
    ensures Reports(q, o, TM.CommitOf(q, WrapHandleIo(o)))
  {
  }

  /** The results rs are those of the outcomes os. */
  ghost predicate Wrapped(os: seq<Outcome>, rs: seq<IoResult>) {
    |os| == |rs| && forall i :: 0 <= i < |os| ==> rs[i] == WrapHandleIo(os[i])
  }

  lemma MatchedAnswers(qs: seq<Request>, os: seq<Outcome>, rs: seq<IoResult>, cs: seq<TM.Committed>, a: TM.TagState)
    requires TM.Matched(qs, rs, cs, a) && Wrapped(os, rs)
    ensures Answered(qs, os, cs)
  {
    forall i | 0 <= i < |cs| ensures Reports(qs[i], os[i], cs[i]) {
      WrapReports(qs[i], os[i]);
      assert rs[i] == WrapHandleIo(os[i]);
    }
  }

  lemma WrappedCons(os: seq<Outcome>, rs: seq<IoResult>, o: Outcome)
    requires Wrapped(os, rs)
    ensures Wrapped([o] + os, [WrapHandleIo(o)] + rs)
  {
  }

  // ---------------------------------------------------------------- batch queue

  /** How the handlers of tag t completed, in order. */
  function BatchOutcomes(ls: seq<B.Label>, t: Tag): seq<Outcome> {
    if ls == [] then []
    else (if ls[0].HandlerCompletes? && ls[0].t == t then [ls[0].o] else []) + BatchOutcomes(ls[1..], t)
  }

  lemma {:induction false} BatchWrapped(c: B.Config, s: B.State, ls: seq<B.Label>, s': B.State, t: Tag)
    requires R.Exec(c, s, ls, s')
    ensures Wrapped(BatchOutcomes(ls, t), TM.Handles(R.Trace(c, s, ls, t)))
    decreases |ls|
  {
    if ls != [] {
      var l, mid := ls[0], B.Apply(c, s, ls[0]);
      var es, rest := B.EventsOf(c, s, l, t), R.Trace(c, mid, ls[1..], t);
      BatchWrapped(c, mid, ls[1..], s', t);
      if es == [] {
        assert es + rest == rest;
      } else {
        TM.PartsCons(es[0], rest);
        assert es + rest == [es[0]] + rest;
      }
      if l.HandlerCompletes? && l.t == t {
        WrappedCons(BatchOutcomes(ls[1..], t), TM.Handles(rest), l.o);
      } else {
        assert [] + BatchOutcomes(ls[1..], t) == BatchOutcomes(ls[1..], t);
      }
    }
  }

  /** Along every run of the batch queue, what is committed for a delivery is what its handler's
      completion says. */
  lemma BatchCommitsOutcomes(c: B.Config, s0: B.State, ls: seq<B.Label>, s: B.State, t: Tag)
    requires R.Reaches(c, s0, ls, s) && t < c.depth
    ensures var tr := R.Trace(c, s0, ls, t); Answered(TM.Delivers(tr), BatchOutcomes(ls, t), TM.Commits(tr))
  {
    var a, served := R.BatchRefinesTag(c, s0, ls, s, t);
    var tr := R.Trace(c, s0, ls, t);
    TM.CommitsMatch(c.features, tr, a);
    BatchWrapped(c, s0, ls, s, t);
    MatchedAnswers(TM.Delivers(tr), BatchOutcomes(ls, t), TM.Handles(tr), TM.Commits(tr), a);
  }

  // ---------------------------------------------------------------- simple queue

  function SimpleOutcomes(ls: seq<S.Label>): seq<Outcome> {
    if ls == [] then []
    else (if ls[0].HandlerCompletes? then [ls[0].o] else []) + SimpleOutcomes(ls[1..])
  }

  lemma {:induction false} SimpleWrapped(c: S.Config, s: S.State, ls: seq<S.Label>, s': S.State)
    requires S.Exec(c, s, ls, s')
    ensures Wrapped(SimpleOutcomes(ls), TM.Handles(S.Trace(c, s, ls)))
    decreases |ls|
  {
    if ls != [] {
      var l, mid := ls[0], S.Apply(c, s, ls[0]);
      var es, rest := S.EventsOf(c, s, l), S.Trace(c, mid, ls[1..]);
      SimpleWrapped(c, mid, ls[1..], s');
      if es == [] {
        assert es + rest == rest;
      } else {
        TM.PartsCons(es[0], rest);
        assert es + rest == [es[0]] + rest;
      }
      if l.HandlerCompletes? {
        WrappedCons(SimpleOutcomes(ls[1..]), TM.Handles(rest), l.o);
      } else {
        assert [] + SimpleOutcomes(ls[1..]) == SimpleOutcomes(ls[1..]);
      }
    }
  }

  /** The same along every run of the simple queue. */
  lemma SimpleCommitsOutcomes(c: S.Config, s0: S.State, ls: seq<S.Label>, s: S.State)
    requires S.ValidConfig(c) && S.Initial(s0) && S.Exec(c, s0, ls, s)
    ensures var tr := S.Trace(c, s0, ls); Answered(TM.Delivers(tr), SimpleOutcomes(ls), TM.Commits(tr))
  {
    var a, served := S.SimpleRefinesTag(c, s0, ls, s);
    var tr := S.Trace(c, s0, ls);
    TM.CommitsMatch(c.features, tr, a);
    SimpleWrapped(c, s0, ls, s);
    MatchedAnswers(TM.Delivers(tr), SimpleOutcomes(ls), TM.Handles(tr), TM.Commits(tr), a);
  }

  // ---------------------------------------------------------------- errors look like errors

  predicate PositiveCode(o: Outcome) {
    (o.ErrorCode? || o.SystemError?) ==> o.code > 0
  }

  /** A handler that failed or was stopped, or that itself returned a negative value. */
  predicate Unsuccessful(o: Outcome) {
    match o
    case Value(v) => v < 0
    case ZonedValue(v, _) => v < 0
    case _ => true
  }

  /** With positive codes, the driver sees a negative result exactly for the requests whose handler was
      unsuccessful. */
  lemma NegativeIffUnsuccessful(qs: seq<Request>, os: seq<Outcome>, cs: seq<TM.Committed>, i: nat)
    requires Answered(qs, os, cs) && i < |cs| && PositiveCode(os[i])
    ensures cs[i].res < 0 <==> Unsuccessful(os[i])
  {
    assert Reports(qs[i], os[i], cs[i]);
  }
}
