/** Runs of the machine that keep to a given kind of event, and how they are put together. */
module Reachability {
  import opened Calendar
  import opened Subscriptions
  import opened ConcurrentBilling

  type Kind = Event -> bool

  /** The clock and worker `w` move; nobody begins a call and no database error occurs. */
  function OnlyWorker(w: nat): Kind {
    (e: Event) => e.Tick? || e == Step(w)
  }

  const Anything: Kind := (e: Event) => true

  predicate AllOf(es: seq<Event>, kind: Kind) {
    forall k :: 0 <= k < |es| ==> kind(es[k])
  }

  ghost predicate Reaches(plans: Catalogue, s: State, t: State, kind: Kind) {
    exists es: seq<Event> :: AllOf(es, kind) && Run(plans, s, es) == t
  }

  lemma Stays(plans: Catalogue, s: State, kind: Kind)
    ensures Reaches(plans, s, s, kind)
  {
    assert AllOf([], kind) && Run(plans, s, []) == s;
  }

  lemma ThenReaches(plans: Catalogue, s: State, t: State, u: State, kind: Kind)
    requires Reaches(plans, s, t, kind) && Reaches(plans, t, u, kind)
    ensures Reaches(plans, s, u, kind)
  {
    hide Run;
    var es: seq<Event> :| AllOf(es, kind) && Run(plans, s, es) == t;
    var fs: seq<Event> :| AllOf(fs, kind) && Run(plans, t, fs) == u;
    RunAppend(plans, s, es, fs);
    assert AllOf(es + fs, kind);
  }

  lemma OneEvent(plans: Catalogue, s: State, e: Event, kind: Kind)
    requires kind(e)
    ensures Reaches(plans, s, Apply(plans, s, e), kind)
  {
    hide Apply;
    assert [e][..0] == [];
    assert Run(plans, s, [e]) == Apply(plans, s, e);
    assert AllOf([e], kind);
  }

  lemma Wait(plans: Catalogue, s: State, t: Instant, kind: Kind)
    requires s.clock <= t && kind(Tick(t - s.clock))
    ensures Reaches(plans, s, s.(clock := t), kind)
  {
    OneEvent(plans, s, Tick(t - s.clock), kind);
  }

  lemma Steps(plans: Catalogue, s: State, w: nat, kind: Kind)
    requires w < |s.workers| && Fits(s.db, s.workers[w]) && kind(Step(w))
    ensures Reaches(plans, s, Advance(plans, s, w), kind)
  {
    hide Advance;
    OneEvent(plans, s, Step(w), kind);
  }

  function At(s: State, w: nat, pc: Pc): State
    requires w < |s.workers|
  {
    s.(workers := s.workers[w := pc])
  }

  lemma Moves(plans: Catalogue, s: State, w: nat, pc: Pc, kind: Kind)
    requires w < |s.workers| && Fits(s.db, s.workers[w]) && kind(Step(w))
    requires Act(plans, s.db, s.clock, s.workers[w]) == (pc, Quiet)
    ensures Reaches(plans, s, At(s, w, pc), kind)
  {
    hide Act;
    Steps(plans, s, w, kind);
  }
}
