/**
 * The server's requests and the worker's handlers as programs. Each call of a program is one step
 * of the lifecycle, taken after any steps of everybody else, with an outcome the environment
 * chooses. Whatever it chooses, the program follows the protocol to its end.
 */
module Programs {
  import opened Domain
  import opened Repository
  import opened Lifecycle
  import opened LifecycleInvariant
  import opened LifecycleLocality
  import opened LifecycleTheorems
  import opened LifecycleSteps
  import Reconciler

  /** What happens around one call: the steps of others before it, and its own outcome. */
  datatype Moment = Moment(others: seq<Action>, outcome: Outcome, gone: set<Key>)

  /**
   * A query of the reconciler: the steps of others before it, and after how many rows it breaks off
   * if it does. Rows are handled as they come.
   */
  datatype Query = Query(others: seq<Action>, breaksAfter: Option<nat>)

  /** What is read of a result. */
  function Read(ids: seq<Id>, breaksAfter: Option<nat>): (r: seq<Id>)
    ensures r <= ids && (breaksAfter.None? || breaksAfter.value >= |ids| ==> r == ids)
    ensures breaksAfter.Some? && breaksAfter.value < |ids| ==> |r| == breaksAfter.value
  {
    if breaksAfter.Some? then ids[..Min(breaksAfter.value, |ids|)] else ids
  }

  /** An error as the repository and the store report it. */
  datatype Error = NoError | NotFound | InvalidTransition | Forbidden | Other

  predicate Foreign(a: Action, t: nat) {
    !(a.AttemptStep? && a.act == t) && !(a.Panic? && a.act == t) && !(a.KillAttempt? && a.act == t)
  }

  predicate AllForeign(actions: seq<Action>, t: nat) {
    forall i :: 0 <= i < |actions| ==> Foreign(actions[i], t)
  }

  predicate AttemptStays(s: State, s': State, t: nat) {
    t in s.attempts && t in s'.attempts && s'.attempts[t] == s.attempts[t] && t < s'.next
  }

  lemma TurnLeavesAttempt(cfg: Config, s: State, a: Action, t: nat)
    requires cfg.Valid() && t in s.attempts && t < s.next && Foreign(a, t)
    requires a.AttemptStep? || a.UploadStep? || a.DeleteStep? || a.PassStep?
    ensures AttemptStays(s, Step(cfg, s, a), t)
  {
  }

  lemma OccurrenceLeavesAttempt(cfg: Config, s: State, a: Action, t: nat)
    requires t in s.attempts && t < s.next && Foreign(a, t)
    ensures AttemptStays(s, Occur(cfg, s, a), t)
  {
  }

  lemma StepLeavesAttempt(cfg: Config, s: State, a: Action, t: nat)
    requires cfg.Valid() && t in s.attempts && t < s.next && Foreign(a, t)
    ensures AttemptStays(s, Step(cfg, s, a), t)
  {
    if a.AttemptStep? || a.UploadStep? || a.DeleteStep? || a.PassStep? { TurnLeavesAttempt(cfg, s, a, t); }
    else { OccurrenceLeavesAttempt(cfg, s, a, t); }
  }

  lemma {:induction false} OthersLeaveAttempt(cfg: Config, s: State, actions: seq<Action>, t: nat)
    requires cfg.Valid() && t in s.attempts && t < s.next && AllForeign(actions, t)
    ensures AttemptStays(s, Run(cfg, s, actions), t)
    decreases |actions|
  {
    if actions != [] {
      StepLeavesAttempt(cfg, s, actions[0], t);
      OthersLeaveAttempt(cfg, Step(cfg, s, actions[0]), actions[1..], t);
    }
  }

  // The same for the requests of the server

  predicate ForeignToUpload(a: Action, id: Id) {
    !(a.UploadStep? && a.id == id) && !(a.KillUpload? && a.id == id)
  }

  lemma StepLeavesUpload(cfg: Config, s: State, a: Action, id: Id)
    requires cfg.Valid() && id in s.uploads && ForeignToUpload(a, id)
    ensures var s' := Step(cfg, s, a); id in s'.uploads && s'.uploads[id] == s.uploads[id]
  {
    if a.UploadStep? || a.BeginUpload? || a.KillUpload? {
    } else {
      OnlyUploadsMove(cfg, s, a);
    }
  }

  lemma TurnsLeaveUploads(cfg: Config, s: State, a: Action)
    requires cfg.Valid() && (a.DeleteStep? || a.AttemptStep? || a.PassStep?)
    ensures Step(cfg, s, a).uploads == s.uploads
  {
  }

  lemma OnlyUploadsMove(cfg: Config, s: State, a: Action)
    requires cfg.Valid() && !a.UploadStep? && !a.BeginUpload? && !a.KillUpload?
    ensures Step(cfg, s, a).uploads == s.uploads
  {
    if a.DeleteStep? || a.AttemptStep? || a.PassStep? { TurnsLeaveUploads(cfg, s, a); }
    else { assert Occur(cfg, s, a).uploads == s.uploads; }
  }

  lemma {:induction false} OthersLeaveUpload(cfg: Config, s: State, actions: seq<Action>, id: Id)
    requires cfg.Valid() && id in s.uploads && forall i :: 0 <= i < |actions| ==> ForeignToUpload(actions[i], id)
    ensures var s' := Run(cfg, s, actions); id in s'.uploads && s'.uploads[id] == s.uploads[id]
    decreases |actions|
  {
    if actions != [] {
      StepLeavesUpload(cfg, s, actions[0], id);
      OthersLeaveUpload(cfg, Step(cfg, s, actions[0]), actions[1..], id);
    }
  }

  /**
   * What nobody but its own upload does to an avatar: create its row, or report its original as
   * stored. Time does not go back, and the row keeps its owner and its bytes.
   */
  predicate LeftToItsUpload(s: State, s': State, id: Id) {
    && s.now <= s'.now
    && (id in s'.rows ==> id in s.rows)
    && (id in s.rows ==> id in s'.rows && Evolved(s.rows[id], s'.rows[id]))
    && (id in s.rows && s.rows[id].upload != Uploaded ==> s'.rows[id].upload != Uploaded)
    && (id in s.rows && id in s.born ==> id in s'.born && s'.born[id] == s.born[id])
  }

  lemma RequestLeavesUpload(cfg: Config, s: State, a: Action, id: Id)
    requires cfg.Valid() && (a.UploadStep? || a.DeleteStep?) && ForeignToUpload(a, id)
    ensures LeftToItsUpload(s, Step(cfg, s, a), id)
  {
  }

  lemma PassLeavesUpload(cfg: Config, s: State, a: Action, id: Id)
    requires cfg.Valid() && a.PassStep?
    ensures LeftToItsUpload(s, Step(cfg, s, a), id)
  {
  }

  lemma DeliveryKeepsUploadStatus(cfg: Config, s: State, a: Action, id: Id)
    requires cfg.Valid() && a.AttemptStep?
    ensures var rows := RowsAfter(s, EffectOf(cfg, s, a));
      (id in rows ==> id in s.rows) && (id in s.rows ==> id in rows && rows[id].upload == s.rows[id].upload)
  {
  }

  lemma DeliveryKeepsHistory(cfg: Config, s: State, a: Action)
    requires cfg.Valid() && a.AttemptStep?
    ensures Step(cfg, s, a).born == s.born && Step(cfg, s, a).now == s.now
  {
  }

  lemma DeliveryLeavesUpload(cfg: Config, s: State, a: Action, id: Id)
    requires cfg.Valid() && a.AttemptStep?
    ensures LeftToItsUpload(s, Step(cfg, s, a), id)
  {
    var s' := Step(cfg, s, a);
    assert s'.rows == RowsAfter(s, EffectOf(cfg, s, a)) by { StepShowsEffect(cfg, s, a); }
    DeliveryKeepsHistory(cfg, s, a);
    DeliveryKeepsUploadStatus(cfg, s, a, id);
    if id in s.rows { AttemptEvolvesRow(cfg, s, a, id); }
  }

  lemma OccurrenceLeavesUpload(cfg: Config, s: State, a: Action, id: Id)
    ensures LeftToItsUpload(s, Occur(cfg, s, a), id)
  {
  }

  lemma {:induction false} OthersLeaveItToUpload(cfg: Config, s: State, actions: seq<Action>, id: Id)
    requires cfg.Valid() && forall i :: 0 <= i < |actions| ==> ForeignToUpload(actions[i], id)
    ensures LeftToItsUpload(s, Run(cfg, s, actions), id)
    decreases |actions|
  {
    if actions != [] {
      var a, s1 := actions[0], Step(cfg, s, actions[0]);
      assert LeftToItsUpload(s, s1, id) by {
        if a.UploadStep? || a.DeleteStep? { RequestLeavesUpload(cfg, s, a, id); }
        else if a.PassStep? { PassLeavesUpload(cfg, s, a, id); }
        else if a.AttemptStep? { DeliveryLeavesUpload(cfg, s, a, id); }
        else { OccurrenceLeavesUpload(cfg, s, a, id); }
      }
      OthersLeaveItToUpload(cfg, s1, actions[1..], id);
      if id in s.rows { EvolvedIsTransitive(s.rows[id], s1.rows[id], Run(cfg, s1, actions[1..]).rows[id]); }
    }
  }

  predicate ForeignToDelete(a: Action, d: nat) {
    !(a.DeleteStep? && a.act == d) && !(a.KillDelete? && a.act == d)
  }

  lemma TurnsLeaveDeletes(cfg: Config, s: State, a: Action)
    requires cfg.Valid() && (a.UploadStep? || a.AttemptStep? || a.PassStep?)
    ensures Step(cfg, s, a).deletes == s.deletes && Step(cfg, s, a).next >= s.next
  {
  }

  lemma OnlyDeletesMove(cfg: Config, s: State, a: Action)
    requires cfg.Valid() && !a.DeleteStep? && !a.BeginDelete? && !a.KillDelete?
    ensures Step(cfg, s, a).deletes == s.deletes && Step(cfg, s, a).next >= s.next
  {
    if a.UploadStep? || a.AttemptStep? || a.PassStep? { TurnsLeaveDeletes(cfg, s, a); }
    else { assert Occur(cfg, s, a).deletes == s.deletes && Occur(cfg, s, a).next >= s.next; }
  }

  lemma StepLeavesDelete(cfg: Config, s: State, a: Action, d: nat)
    requires cfg.Valid() && d in s.deletes && d < s.next && ForeignToDelete(a, d)
    ensures var s' := Step(cfg, s, a); d in s'.deletes && s'.deletes[d] == s.deletes[d] && d < s'.next
  {
    if a.DeleteStep? || a.BeginDelete? || a.KillDelete? {
    } else {
      OnlyDeletesMove(cfg, s, a);
    }
  }

  lemma {:induction false} OthersLeaveDelete(cfg: Config, s: State, actions: seq<Action>, d: nat)
    requires cfg.Valid() && d in s.deletes && d < s.next
    requires forall i :: 0 <= i < |actions| ==> ForeignToDelete(actions[i], d)
    ensures var s' := Run(cfg, s, actions); d in s'.deletes && s'.deletes[d] == s.deletes[d] && d < s'.next
    decreases |actions|
  {
    if actions != [] {
      StepLeavesDelete(cfg, s, actions[0], d);
      OthersLeaveDelete(cfg, Step(cfg, s, actions[0]), actions[1..], d);
    }
  }

  // The same for the passes of the reconciler

  predicate ForeignToPass(a: Action, p: nat) {
    !(a.PassStep? && a.act == p) && !(a.KillPass? && a.act == p)
  }

  predicate AllForeignToPass(actions: seq<Action>, p: nat) {
    forall i :: 0 <= i < |actions| ==> ForeignToPass(actions[i], p)
  }

  /** Messages are numbered below the next identifier, so none is ever overwritten. */
  predicate Numbered(s: State) {
    forall m :: m in s.sent ==> m < s.next
  }

  /** No message is forgotten. */
  predicate Remembers(sent: map<nat, Event>, sent': map<nat, Event>) {
    forall m :: m in sent ==> m in sent' && sent'[m] == sent[m]
  }

  ghost predicate IsAnnounced(sent: map<nat, Event>, e: Event) {
    exists m :: Announced(sent, m, e)
  }

  ghost predicate AllAnnounced(sent: map<nat, Event>, events: seq<Event>) {
    forall i :: 0 <= i < |events| ==> IsAnnounced(sent, events[i])
  }

  lemma AnnouncedStays(sent: map<nat, Event>, sent': map<nat, Event>, events: seq<Event>)
    requires Remembers(sent, sent') && AllAnnounced(sent, events)
    ensures AllAnnounced(sent', events)
  {
    forall i | 0 <= i < |events| ensures IsAnnounced(sent', events[i]) {
      assert IsAnnounced(sent, events[i]);
      var m :| Announced(sent, m, events[i]);
      assert Announced(sent', m, events[i]);
    }
  }

  /** The pass is where it was. */
  predicate PassStays(s: State, s': State, p: nat) {
    p in s.passes && p in s'.passes && s'.passes[p] == s.passes[p] && p < s'.next && Numbered(s')
      && Remembers(s.sent, s'.sent)
  }

  lemma TurnLeavesPass(cfg: Config, s: State, a: Action, p: nat)
    requires cfg.Valid() && p in s.passes && p < s.next && Numbered(s)
    requires a.UploadStep? || a.DeleteStep? || a.AttemptStep?
    ensures PassStays(s, Step(cfg, s, a), p)
  {
  }

  lemma OtherPassLeavesPass(cfg: Config, s: State, q: nat, o: Outcome, picked: seq<Id>, p: nat)
    requires q in s.passes && p in s.passes && p < s.next && Numbered(s) && q != p
    ensures PassStays(s, StepPass(cfg, s, q, o, picked), p)
  {
  }

  lemma OccurrenceLeavesPass(cfg: Config, s: State, a: Action, p: nat)
    requires p in s.passes && p < s.next && Numbered(s) && ForeignToPass(a, p)
    ensures PassStays(s, Occur(cfg, s, a), p)
  {
  }

  lemma StepLeavesPass(cfg: Config, s: State, a: Action, p: nat)
    requires cfg.Valid() && p in s.passes && p < s.next && Numbered(s) && ForeignToPass(a, p)
    ensures PassStays(s, Step(cfg, s, a), p)
  {
    if a.UploadStep? || a.DeleteStep? || a.AttemptStep? { TurnLeavesPass(cfg, s, a, p); }
    else if a.PassStep? { if a.act in s.passes { OtherPassLeavesPass(cfg, s, a.act, a.outcome, a.picked, p); } }
    else { OccurrenceLeavesPass(cfg, s, a, p); }
  }

  lemma {:induction false} OthersLeavePass(cfg: Config, s: State, actions: seq<Action>, p: nat)
    requires cfg.Valid() && p in s.passes && p < s.next && Numbered(s) && AllForeignToPass(actions, p)
    ensures PassStays(s, Run(cfg, s, actions), p)
    decreases |actions|
  {
    if actions != [] {
      StepLeavesPass(cfg, s, actions[0], p);
      OthersLeavePass(cfg, Step(cfg, s, actions[0]), actions[1..], p);
    }
  }

  lemma PassPublishes(cfg: Config, s: State, p: nat, o: Outcome, picked: seq<Id>, e: Event, next: Option<PassPc>)
    requires p in s.passes && p < s.next && Numbered(s)
    requires PassTurn(cfg, s, p, o, picked) == Turn(Lifecycle.Sent(o, e), next)
    ensures var s' := StepPass(cfg, s, p, o, picked);
      && Remembers(s.sent, s'.sent) && Numbered(s') && p < s'.next
      && (o == Ok ==> IsAnnounced(s'.sent, e))
      && (if next.Some? then p in s'.passes && s'.passes[p] == next.value else p !in s'.passes)
  {
    assert o == Ok ==> Announced(StepPass(cfg, s, p, o, picked).sent, s.next, e);
  }

  /** What a publication adds to the events that have reached the broker. */
  lemma PassAnnounces(cfg: Config, s: State, p: nat, o: Outcome, e: Event, next: Option<PassPc>, events: seq<Event>)
    requires p in s.passes && p < s.next && Numbered(s) && AllAnnounced(s.sent, events)
    requires PassTurn(cfg, s, p, o, []) == Turn(Lifecycle.Sent(o, e), next)
    ensures var s' := StepPass(cfg, s, p, o, []);
      && AllAnnounced(s'.sent, if o == Ok then events + [e] else events) && Numbered(s') && p < s'.next
      && (if next.Some? then p in s'.passes && s'.passes[p] == next.value else p !in s'.passes)
  {
    PassPublishes(cfg, s, p, o, [], e, next);
    AnnouncedStays(s.sent, StepPass(cfg, s, p, o, []).sent, events);
  }

  lemma PassOnlyReads(cfg: Config, s: State, p: nat, o: Outcome, picked: seq<Id>, next: Option<PassPc>)
    requires p in s.passes && PassTurn(cfg, s, p, o, picked) == Turn(Nothing, next)
    ensures StepPass(cfg, s, p, o, picked) ==
              s.(passes := if next.Some? then s.passes[p := next.value] else s.passes - {p})
  {
  }

  // Rows only evolve, in whatever state.

  lemma RequestEvolvesRow(cfg: Config, s: State, a: Action, id: Id)
    requires cfg.Valid() && id in s.rows && !a.AttemptStep?
    ensures var rows := RowsAfter(s, EffectOf(cfg, s, a)); id in rows && Evolved(s.rows[id], rows[id])
  {
  }

  lemma AttemptEvolvesRow(cfg: Config, s: State, a: Action, id: Id)
    requires cfg.Valid() && id in s.rows && a.AttemptStep?
    ensures var rows := RowsAfter(s, EffectOf(cfg, s, a)); id in rows && Evolved(s.rows[id], rows[id])
  {
  }

  lemma {:induction false} RowsEvolve(cfg: Config, s: State, actions: seq<Action>, id: Id)
    requires cfg.Valid() && id in s.rows
    ensures id in Run(cfg, s, actions).rows && Evolved(s.rows[id], Run(cfg, s, actions).rows[id])
    decreases |actions|
  {
    if actions != [] {
      var a := actions[0];
      var s1 := Step(cfg, s, a);
      assert id in s1.rows && Evolved(s.rows[id], s1.rows[id]) by {
        StepShowsEffect(cfg, s, a);
        if a.AttemptStep? { AttemptEvolvesRow(cfg, s, a, id); } else { RequestEvolvesRow(cfg, s, a, id); }
      }
      RowsEvolve(cfg, s1, actions[1..], id);
      EvolvedIsTransitive(s.rows[id], s1.rows[id], Run(cfg, s1, actions[1..]).rows[id]);
    }
  }

  /** A call that does not settle the delivery moves its attempt to the next point. */
  lemma CallMovesOn(cfg: Config, s: State, t: nat, o: Outcome, gone: set<Key>)
    requires cfg.Valid() && t in s.attempts && t < s.next
    requires AttemptTurn(cfg, s, t, o, gone).next.Some?
    ensures var s' := Step(cfg, s, AttemptStep(t, o, gone));
      && t in s'.attempts && t < s'.next
      && s'.attempts[t] == s.attempts[t].(pc := AttemptTurn(cfg, s, t, o, gone).next.value)
      && s'.rows == RowsAfter(s, AttemptTurn(cfg, s, t, o, gone).effect)
      && s'.objects == ObjectsAfter(s, AttemptTurn(cfg, s, t, o, gone).effect)
  {
  }

  lemma PutStep(cfg: Config, s: State, t: nat, o: Outcome, gone: set<Key>)
    requires cfg.Valid() && t in s.attempts && t < s.next && s.attempts[t].event.UploadEvent?
    requires s.attempts[t].pc.Storing?
    requires s.attempts[t].pc.next < |ThumbnailSizes()|
    requires ThumbnailSizes()[s.attempts[t].pc.next] in s.attempts[t].pc.thumbs
    ensures var a, s' := s.attempts[t], Step(cfg, s, AttemptStep(t, o, gone));
      var z, key := ThumbnailSizes()[a.pc.next], Thumb(a.event.id, ThumbnailSizes()[a.pc.next]);
      && t in s'.attempts && t < s'.next
      && s'.attempts[t] == a.(pc := if o == Ok then Storing(a.pc.next + 1, a.pc.thumbs, a.pc.keys[z := key])
           else Failing(Retryable))
      && (o == Ok ==> key in s'.objects && s'.objects[key] == a.pc.thumbs[z])
  {
  }

  class World {
    const cfg: Config
    var s: State
    ghost const origin: State
    ghost var trace: seq<Action>

    /** The current state is the outcome of a run. */
    ghost predicate Valid()
      reads this
    {
      cfg.Valid() && s == Run(cfg, origin, trace)
    }

    /** The attempt is the given one, at the given point. */
    predicate At(t: nat, a: Attempt, pc: AttemptPc)
      reads this
    {
      t in s.attempts && t < s.next && s.attempts[t] == a.(pc := pc)
    }

    constructor (cfg: Config, s: State)
      requires cfg.Valid()
      ensures Valid() && this.s == s && this.cfg == cfg
    {
      this.cfg, this.s := cfg, s;
      origin, trace := s, [];
    }

    /** Others act. */
    method Let(others: seq<Action>)
      requires Valid()
      modifies this
      ensures Valid() && s == Run(cfg, old(s), others)
    {
      RunsCompose(cfg, origin, trace, others);
      s := Run(cfg, s, others);
      trace := trace + others;
    }

    /** A program takes a step of its own. */
    method Do(a: Action)
      requires Valid()
      modifies this
      ensures Valid() && s == Step(cfg, old(s), a)
    {
      RunsCompose(cfg, origin, trace, [a]);
      RunOfOne(cfg, s, a);
      s := Step(cfg, s, a);
      trace := trace + [a];
    }

    // Worker

    /** Others act; the attempt is still where it was. */
    method Elapse(t: nat, a: Attempt, pc: AttemptPc, others: seq<Action>)
      requires Valid() && At(t, a, pc) && AllForeign(others, t)
      modifies this
      ensures Valid() && At(t, a, pc)
      ensures a.event.id in old(s).rows ==> a.event.id in s.rows && Evolved(old(s).rows[a.event.id], s.rows[a.event.id])
    {
      OthersLeaveAttempt(cfg, s, others, t);
      if a.event.id in s.rows { RowsEvolve(cfg, s, others, a.event.id); }
      Let(others);
    }

    /** One call of the attempt. */
    method Call(t: nat, a: Attempt, pc: AttemptPc, m: Moment)
      requires Valid() && At(t, a, pc) && AttemptTurn(cfg, s, t, m.outcome, m.gone).next.Some?
      modifies this
      ensures Valid() && At(t, a, AttemptTurn(cfg, old(s), t, m.outcome, m.gone).next.value)
      ensures s.rows == RowsAfter(old(s), AttemptTurn(cfg, old(s), t, m.outcome, m.gone).effect)
      ensures s.objects == ObjectsAfter(old(s), AttemptTurn(cfg, old(s), t, m.outcome, m.gone).effect)
    {
      CallMovesOn(cfg, s, t, m.outcome, m.gone);
      Do(AttemptStep(t, m.outcome, m.gone));
    }

    method Get(t: nat, a: Attempt, m: Moment) returns (err: Error, row: Option<Row>)
      requires Valid() && At(t, a, Getting) && a.event.UploadEvent? && AllForeign(m.others, t)
      modifies this
      ensures Valid()
      ensures match err
        case NoError => row.Some? && row.value.Live()
          && At(t, a, if Done(row.value.processing) then Returned(Nil) else Starting)
        case NotFound => At(t, a, Returned(Nil))
        case Other => At(t, a, Failing(Retryable))
        case _ => false
    {
      Elapse(t, a, Getting, m.others);
      var id := a.event.id;
      if m.outcome != Ok {
        err, row := Other, None;
      } else if id !in s.rows || !s.rows[id].Live() {
        err, row := NotFound, None;
      } else {
        err, row := NoError, Some(s.rows[id]);
      }
      Call(t, a, Getting, m);
    }
  
    /** The transition to processing, with the second read that explains a refusal. */
    method SetProcessing(t: nat, a: Attempt, m: Moment, again: Moment) returns (err: Error)
      requires Valid() && At(t, a, Starting) && a.event.UploadEvent? && AllForeign(m.others, t)
      requires AllForeign(again.others, t)
      modifies this
      ensures Valid()
      ensures match err
        case NoError => At(t, a, Rendering) && a.event.id in s.rows && s.rows[a.event.id].processing == Processing
        case Other => At(t, a, Failing(Retryable))
        case Forbidden => false
        case _ => At(t, a, Returned(Nil))
    {
      Elapse(t, a, Starting, m.others);
      var matched := a.event.id in s.rows && SetProcessingStatus(s.rows[a.event.id], Processing, s.now).Some?;
      Call(t, a, Starting, m);
      if m.outcome != Ok {
        return Other;
      }
      if matched {
        return NoError;
      }
      Elapse(t, a, CheckingStart, again.others);
      var alive := a.event.id in s.rows && s.rows[a.event.id].Live();
      Call(t, a, CheckingStart, again);
      if again.outcome != Ok {
        return Other;
      }
      return if alive then InvalidTransition else NotFound;
    }

    /** Picks the row and begins its processing; `ok` is false when there is nothing to do. */
    method Start(t: nat, a: Attempt, ms: nat -> Moment) returns (ok: bool, err: Error)
      requires Valid() && At(t, a, Getting) && a.event.UploadEvent? && forall i :: AllForeign(ms(i).others, t)
      modifies this
      ensures Valid()
      ensures if err != NoError then At(t, a, Failing(Retryable)) else At(t, a, if ok then Rendering else Returned(Nil))
    {
      var got, row := Get(t, a, ms(0));
      if got == NotFound {
        return false, NoError;
      }
      if got != NoError {
        return false, got;
      }
      if Done(row.value.processing) {
        return false, NoError;
      }
      err := SetProcessing(t, a, ms(1), ms(2));
      if err == NotFound || err == InvalidTransition {
        return false, NoError;
      }
      return err == NoError, err;
    }

    /** Reads the original and renders it; what cannot be repaired is told apart from what can. */
    method Render(t: nat, a: Attempt, m: Moment) returns (failed: Result, thumbs: map<ThumbnailSize, Bytes>)
      requires Valid() && At(t, a, Rendering) && a.event.UploadEvent? && AllForeign(m.others, t)
      modifies this
      ensures Valid() && At(t, a, if failed == Nil then Storing(0, thumbs, map[]) else Failing(failed))
      ensures var key := Original(a.event.id);
        && (failed == Nil ==> key in s.objects && Rendered(cfg, s.objects[key]) == Some(thumbs))
        && (failed == NonRetryable ==> key in s.objects ==> Rendered(cfg, s.objects[key]).None?)
        && (failed == Retryable <==> m.outcome != Ok)
    {
      Elapse(t, a, Rendering, m.others);
      var key := Original(a.event.id);
      thumbs := map[];
      if m.outcome != Ok {
        failed := Retryable;
      } else if key !in s.objects || |s.objects[key]| > cfg.maxOriginalBytes {
        failed := NonRetryable;
      } else {
        match cfg.render(s.objects[key])
        case None => failed := NonRetryable;
        case Some(rendered) => failed, thumbs := Nil, rendered;
      }
      Call(t, a, Rendering, m);
    }

    /** Passes over a size that was not rendered. */
    method Skip(t: nat, a: Attempt, n: nat, thumbs: map<ThumbnailSize, Bytes>, keys: map<ThumbnailSize, Key>)
      requires n < |ThumbnailSizes()| && Valid() && At(t, a, Storing(n, thumbs, keys)) && a.event.UploadEvent?
      requires ThumbnailSizes()[n] !in thumbs
      modifies this
      ensures Valid() && At(t, a, Storing(n + 1, thumbs, keys))
    {
      Call(t, a, Storing(n, thumbs, keys), Moment([], Ok, {}));
    }

    /** Stores one thumbnail: it is there when the call has succeeded, and before its key is noted. */
    method Put(t: nat, a: Attempt, n: nat, thumbs: map<ThumbnailSize, Bytes>, keys: map<ThumbnailSize, Key>, m: Moment)
      returns (ok: bool)
      requires n < |ThumbnailSizes()| && Valid() && At(t, a, Storing(n, thumbs, keys)) && a.event.UploadEvent?
      requires AllForeign(m.others, t)
      requires ThumbnailSizes()[n] in thumbs
      modifies this
      ensures Valid()
      ensures var z := ThumbnailSizes()[n];
        && At(t, a, if ok then Storing(n + 1, thumbs, keys[z := Thumb(a.event.id, z)]) else Failing(Retryable))
        && (ok ==> Thumb(a.event.id, z) in s.objects && s.objects[Thumb(a.event.id, z)] == thumbs[z])
    {
      Elapse(t, a, Storing(n, thumbs, keys), m.others);
      PutStep(cfg, s, t, m.outcome, m.gone);
      Do(AttemptStep(t, m.outcome, m.gone));
      return m.outcome == Ok;
    }

    /** Stores the thumbnails size by size; at the end the keys are those of all thumbnails. */
    method StoreThumbnails(t: nat, a: Attempt, thumbs: map<ThumbnailSize, Bytes>, ms: nat -> Moment)
      returns (ok: bool, keys: map<ThumbnailSize, Key>)
      requires Valid() && At(t, a, Storing(0, thumbs, map[])) && a.event.UploadEvent?
      requires forall i :: AllForeign(ms(i).others, t)
      modifies this
      ensures Valid() && At(t, a, if ok then Storing(|ThumbnailSizes()|, thumbs, keys) else Failing(Retryable))
      ensures ok ==> keys == KeysUpTo(a.event.id, thumbs, |ThumbnailSizes()|)
    {
      keys := map[];
      for n := 0 to |ThumbnailSizes()|
        invariant Valid() && At(t, a, Storing(n, thumbs, keys)) && keys == KeysUpTo(a.event.id, thumbs, n)
      {
        var size := ThumbnailSizes()[n];
        KeysUpToNext(a.event.id, thumbs, n);
        if size !in thumbs {
          Skip(t, a, n, thumbs, keys);
        } else {
          ok := Put(t, a, n, thumbs, keys, ms(n));
          if !ok {
            return;
          }
          keys := keys[size := Thumb(a.event.id, size)];
        }
      }
      ok := true;
    }

    /**
     * What the second read says of the row: a live one, completed or failed by another attempt, or a
     * deleted one.
     */
    ghost predicate RefusalExplained(id: Id, err: Error)
      reads this
    {
      && (err == InvalidTransition ==> id in s.rows && s.rows[id].Live())
      && (err == NotFound ==> id in s.rows ==> s.rows[id].deletedAt.Some?)
      && (Inv(cfg, origin) && err == InvalidTransition ==> Done(s.rows[id].processing))
      && (Inv(cfg, origin) && err == NotFound ==> IsDeleted(s, id))
    }

    lemma RefusedIsFinished(t: nat, a: Attempt, keys: map<ThumbnailSize, Key>)
      requires Valid() && At(t, a, CheckingComplete(keys))
      ensures Inv(cfg, origin) ==> IsFinished(s, a.event.id)
    {
      if Inv(cfg, origin) {
        RunKeepsInv(cfg, origin, trace);
        assert AttemptOk(cfg, s, t);
      }
    }

    /** Tells a deleted row from one that is finished already. */
    method ExplainRefusal(t: nat, a: Attempt, keys: map<ThumbnailSize, Key>, m: Moment) returns (err: Error)
      requires Valid() && At(t, a, CheckingComplete(keys)) && a.event.UploadEvent? && AllForeign(m.others, t)
      modifies this
      ensures Valid()
      ensures match err
        case InvalidTransition => At(t, a, Returned(Nil))
        case NotFound => At(t, a, RemovingThumbs(keys))
        case Other => At(t, a, Failing(Retryable))
        case _ => false
      ensures RefusalExplained(a.event.id, err)
    {
      Elapse(t, a, CheckingComplete(keys), m.others);
      RefusedIsFinished(t, a, keys);
      var alive := a.event.id in s.rows && s.rows[a.event.id].Live();
      Call(t, a, CheckingComplete(keys), m);
      if m.outcome != Ok {
        return Other;
      }
      return if alive then InvalidTransition else NotFound;
    }

    /** Writes keys and status, with the second read that explains a refusal. */
    method Complete(t: nat, a: Attempt, thumbs: map<ThumbnailSize, Bytes>, keys: map<ThumbnailSize, Key>, m: Moment,
                    again: Moment)
      returns (err: Error)
      requires Valid() && At(t, a, Storing(|ThumbnailSizes()|, thumbs, keys)) && a.event.UploadEvent?
      requires AllForeign(m.others, t) && AllForeign(again.others, t)
      modifies this
      ensures Valid()
      ensures match err
        case NotFound => At(t, a, RemovingThumbs(keys))
        case Other => At(t, a, Failing(Retryable))
        case Forbidden => false
        case _ => At(t, a, Returned(Nil))
      ensures err == NoError ==>
                a.event.id in s.rows && s.rows[a.event.id].processing == Completed && s.rows[a.event.id].thumbs == keys
      ensures RefusalExplained(a.event.id, err)
    {
      var pc := Storing(|ThumbnailSizes()|, thumbs, keys);
      Elapse(t, a, pc, m.others);
      var matched := a.event.id in s.rows && CompleteProcessing(s.rows[a.event.id], keys, s.now).Some?;
      Call(t, a, pc, m);
      if m.outcome != Ok {
        return Other;
      }
      if matched {
        return NoError;
      }
      err := ExplainRefusal(t, a, keys, again);
    }

    /** Takes back the thumbnails of a row that was deleted meanwhile. */
    method RemoveThumbnails(t: nat, a: Attempt, keys: map<ThumbnailSize, Key>, m: Moment)
      requires Valid() && At(t, a, RemovingThumbs(keys)) && a.event.UploadEvent? && AllForeign(m.others, t)
      modifies this
      ensures Valid() && At(t, a, Failing(NonRetryable))
      ensures m.outcome == Ok ==> forall z :: z in keys ==> keys[z] !in s.objects
    {
      Elapse(t, a, RemovingThumbs(keys), m.others);
      Call(t, a, RemovingThumbs(keys), m);
    }

    /**
     * Makes the thumbnails and completes the row; a deleted row takes them back. If this succeeds,
     * the avatar is finished.
     */
    method Process(t: nat, a: Attempt, ms: nat -> Moment) returns (failed: Result)
      requires Valid() && At(t, a, Rendering) && a.event.UploadEvent? && forall i :: AllForeign(ms(i).others, t)
      modifies this
      ensures Valid() && At(t, a, if failed == Nil then Returned(Nil) else Failing(failed))
      ensures failed == Nil ==> Truthful(t, Nil)
      ensures failed == Nil && Inv(cfg, origin) ==> IsFinished(s, a.event.id)
    {
      var thumbs;
      failed, thumbs := Render(t, a, ms(3));
      if failed != Nil {
        return;
      }
      var ok, keys := StoreThumbnails(t, a, thumbs, (i: nat) => ms(4 + i));
      if !ok {
        return Retryable;
      }
      var err := Complete(t, a, thumbs, keys, ms(6), ms(7));
      if err == NotFound {
        RemoveThumbnails(t, a, keys, ms(8));
        return NonRetryable;
      }
      if err == Other {
        return Retryable;
      }
      ReturnedIsTruthful(t, Nil);
      return Nil;
    }

    /** The row has counted a retry since, unless it is deleted. */
    predicate Counted(before: State, id: Id)
      requires id in before.rows
      reads this
    {
      id in s.rows && (s.rows[id].Live() ==> s.rows[id].retries > before.rows[id].retries)
    }

    /** Counts a retry, for information only: its own failure changes nothing. */
    method CountRetry(t: nat, a: Attempt, m: Moment)
      requires Valid() && At(t, a, Failing(Retryable)) && a.event.UploadEvent? && !a.final && AllForeign(m.others, t)
      modifies this
      ensures Valid() && At(t, a, Returned(Retryable))
      ensures a.event.id in old(s).rows && m.outcome != Fail ==> Counted(old(s), a.event.id)
    {
      Elapse(t, a, Failing(Retryable), m.others);
      Call(t, a, Failing(Retryable), m);
    }

    /** The second read after a refused transition to failed: the row is gone or finished, either will do. */
    method ConfirmFinished(t: nat, a: Attempt, error: Result, m: Moment) returns (ok: bool)
      requires Valid() && At(t, a, CheckingFailed(error)) && a.event.UploadEvent? && AllForeign(m.others, t)
      modifies this
      ensures Valid() && At(t, a, Returned(if ok || a.final then error else Retryable)) && ok == (m.outcome == Ok)
      ensures a.event.id in old(s).rows && old(s).rows[a.event.id].Finished() ==>
                a.event.id in s.rows && s.rows[a.event.id].Finished()
    {
      Elapse(t, a, CheckingFailed(error), m.others);
      Call(t, a, CheckingFailed(error), m);
      return m.outcome == Ok;
    }

    /** The transition to failed; `ok` unless it could not be made although the row would have allowed it. */
    method SetFailed(t: nat, a: Attempt, error: Result, m: Moment, again: Moment) returns (ok: bool)
      requires Valid() && At(t, a, Failing(error)) && a.event.UploadEvent? && error != Nil
      requires error == NonRetryable || a.final
      requires AllForeign(m.others, t) && AllForeign(again.others, t)
      modifies this
      ensures Valid() && At(t, a, Returned(if ok || a.final then error else Retryable))
      ensures ok && a.event.id in old(s).rows ==> a.event.id in s.rows && s.rows[a.event.id].Finished()
      ensures m.outcome == Ok && again.outcome == Ok ==> ok
    {
      Elapse(t, a, Failing(error), m.others);
      var matched := a.event.id in s.rows && SetProcessingStatus(s.rows[a.event.id], ProcessingFailed, s.now).Some?;
      Call(t, a, Failing(error), m);
      if m.outcome != Ok {
        return false;
      }
      if matched {
        return true;
      }
      ok := ConfirmFinished(t, a, error, again);
    }

    /** Records a failed attempt, and chooses the error that decides about the message. */
    method Failure(t: nat, a: Attempt, error: Result, m: Moment, again: Moment) returns (result: Result)
      requires Valid() && At(t, a, Failing(error)) && a.event.UploadEvent? && error != Nil
      requires AllForeign(m.others, t) && AllForeign(again.others, t)
      modifies this
      ensures Valid() && At(t, a, Returned(result)) && result != Nil
      ensures result == NonRetryable ==> error == NonRetryable
      ensures error == NonRetryable && result == Retryable ==> !a.final
      ensures a.event.id in old(s).rows ==>
                if error == Retryable && !a.final then m.outcome != Fail ==> Counted(old(s), a.event.id)
                else (m.outcome == Ok && again.outcome == Ok) || (result == NonRetryable && !a.final) ==>
                       a.event.id in s.rows && s.rows[a.event.id].Finished()
    {
      if error != NonRetryable && !a.final {
        CountRetry(t, a, m);
        return error;
      }
      var ok := SetFailed(t, a, error, m, again);
      if ok || a.final {
        return error;
      }
      return Retryable;
    }

    /** What a result other than a retryable error says about the event of the attempt. */
    ghost predicate Truthful(t: nat, result: Result)
      requires Valid()
      reads this
    {
      Inv(cfg, origin) && result != Retryable ==>
        && t in s.attempts && EventSettled(s, s.attempts[t].event)
        && (result == Nil && s.attempts[t].event.UploadEvent? ==> IsFinished(s, s.attempts[t].event.id))
    }

    lemma ReturnedIsTruthful(t: nat, result: Result)
      requires Valid() && t in s.attempts && s.attempts[t].pc == Returned(result)
      ensures Truthful(t, result)
    {
      if Inv(cfg, origin) && result != Retryable { ReturnIsTruthful(cfg, origin, trace, t, result); }
    }

    /**
     * The handler of upload events. In every environment it ends with the attempt returned to the
     * consumer, by steps of the lifecycle only. Nil means that its avatar is finished, a
     * non-retryable error that it is finished or has been recorded as given up.
     */
    method HandleUploaded(t: nat, ms: nat -> Moment) returns (result: Result)
      requires Valid() && t in s.attempts && t < s.next && s.attempts[t].event.UploadEvent?
      requires s.attempts[t].pc == Getting
      requires forall i :: AllForeign(ms(i).others, t)
      modifies this
      ensures Valid() && t in s.attempts && s.attempts[t] == old(s).attempts[t].(pc := Returned(result))
      ensures Truthful(t, result)
    {
      var a := s.attempts[t];
      result := Nil;
      var ok, err := Start(t, a, ms);
      if err != NoError {
        result := Failure(t, a, Retryable, ms(9), ms(10));
      } else if ok {
        var failed := Process(t, a, ms);
        if failed != Nil {
          result := Failure(t, a, failed, ms(9), ms(10));
        }
      }
      ReturnedIsTruthful(t, result);
    }

    method DeleteKeys(t: nat, a: Attempt, m: Moment) returns (ok: bool)
      requires Valid() && At(t, a, Cleaning) && a.event.DeleteEvent? && a.event.keys != [] && AllForeign(m.others, t)
      modifies this
      ensures Valid() && At(t, a, if ok then MarkingCleaned else Returned(Retryable)) && ok == (m.outcome == Ok)
      ensures ok ==> forall k :: k in a.event.keys ==> k !in s.objects
    {
      Elapse(t, a, Cleaning, m.others);
      Call(t, a, Cleaning, m);
      return m.outcome == Ok;
    }

    method MarkCleaned(t: nat, a: Attempt, m: Moment) returns (err: Error)
      requires Valid() && At(t, a, MarkingCleaned) && a.event.DeleteEvent? && AllForeign(m.others, t)
      modifies this
      ensures Valid() && err != InvalidTransition && (err == Other <==> m.outcome != Ok)
      ensures err == NoError ==> IsCleaned(s, a.event.id)
      ensures At(t, a, Returned(if err == NoError then Nil else if err == NotFound then NonRetryable else Retryable))
    {
      Elapse(t, a, MarkingCleaned, m.others);
      var matched := a.event.id in s.rows;
      Call(t, a, MarkingCleaned, m);
      return if m.outcome != Ok then Other else if matched then NoError else NotFound;
    }

    /** The handler of delete events: the files go first, then the mark. */
    method HandleDeleted(t: nat, ms: nat -> Moment) returns (result: Result)
      requires Valid() && t in s.attempts && t < s.next && s.attempts[t].event.DeleteEvent?
      requires s.attempts[t].pc == Cleaning
      requires forall i :: AllForeign(ms(i).others, t)
      modifies this
      ensures Valid() && t in s.attempts && s.attempts[t] == old(s).attempts[t].(pc := Returned(result))
      ensures Truthful(t, result)
    {
      var a := s.attempts[t];
      if a.event.keys == [] {
        Elapse(t, a, Cleaning, ms(0).others);
        Call(t, a, Cleaning, ms(0));
        result := NonRetryable;
      } else {
        var ok := DeleteKeys(t, a, ms(0));
        result := Retryable;
        if ok {
          var err := MarkCleaned(t, a, ms(1));
          result := if err == NoError then Nil else if err == NotFound then NonRetryable else Retryable;
        }
      }
      ReturnedIsTruthful(t, result);
    }

    // Server: upload

    predicate UploadAt(id: Id, pc: UploadPc)
      reads this
    {
      id in s.uploads && s.uploads[id] == pc
    }

    method ElapseUpload(id: Id, pc: UploadPc, others: seq<Action>)
      requires Valid() && UploadAt(id, pc) && forall i :: 0 <= i < |others| ==> ForeignToUpload(others[i], id)
      modifies this
      ensures Valid() && UploadAt(id, pc) && LeftToItsUpload(old(s), s, id) && (others == [] ==> s == old(s))
    {
      OthersLeaveUpload(cfg, s, others, id);
      OthersLeaveItToUpload(cfg, s, others, id);
      Let(others);
    }

    /** The row is this user's, and was created with these bytes since the given moment. */
    predicate Owned(id: Id, user: string, bytes: Bytes, since: nat)
      reads this
    {
      && id in s.rows && s.rows[id].user == user && since <= s.rows[id].createdAt <= s.now
      && id in s.born && s.born[id] == bytes
    }

    /** Gives the upload up: its row is marked as failed, if that can still be done. */
    method MarkFailed(id: Id, m: Moment)
      requires Valid() && UploadAt(id, MarkingFailed)
      requires forall i :: 0 <= i < |m.others| ==> ForeignToUpload(m.others[i], id)
      modifies this
      ensures Valid() && id !in s.uploads
      ensures id in old(s).rows ==> id in s.rows && Evolved(old(s).rows[id], s.rows[id])
      ensures m.outcome != Fail && id in s.rows && s.rows[id].Live() ==> s.rows[id].upload != Uploading
    {
      ElapseUpload(id, MarkingFailed, m.others);
      Do(UploadStep(id, m.outcome));
    }

    /** The second read after a refused transition: whatever it says, the row is closed. */
    method CheckUploaded(id: Id, again: Moment, ghost user: string, ghost bytes: Bytes, ghost since: nat)
      requires Valid() && UploadAt(id, CheckingUploaded) && Owned(id, user, bytes, since) && s.rows[id].Closed()
      requires forall i :: 0 <= i < |again.others| ==> ForeignToUpload(again.others[i], id)
      modifies this
      ensures Valid() && UploadAt(id, MarkingFailed) && Owned(id, user, bytes, since) && s.rows[id].Closed()
    {
      ElapseUpload(id, CheckingUploaded, again.others);
      Do(UploadStep(id, again.outcome));
    }

    /** The transition to uploaded, with the second read that explains a refusal. */
    method SetUploaded(id: Id, m: Moment, again: Moment, ghost user: string, ghost bytes: Bytes, ghost since: nat)
      returns (ok: bool)
      requires Valid() && UploadAt(id, MarkingUploaded) && Owned(id, user, bytes, since)
      requires s.rows[id].upload != Uploaded
      requires forall i :: 0 <= i < |m.others| ==> ForeignToUpload(m.others[i], id)
      requires forall i :: 0 <= i < |again.others| ==> ForeignToUpload(again.others[i], id)
      modifies this
      ensures Valid() && UploadAt(id, if ok then PublishingUpload else MarkingFailed) && Owned(id, user, bytes, since)
      ensures ok ==> s.rows[id].upload == Uploaded
      ensures !ok && m.outcome == Ok ==> s.rows[id].Closed()
      ensures m.outcome == Ok && m.others == [] && old(s).rows[id].Live() && old(s).rows[id].upload == Uploading ==> ok
    {
      ElapseUpload(id, MarkingUploaded, m.others);
      var matched := id in s.rows && SetUploadStatus(s.rows[id], Uploaded, s.now).Some?;
      Do(UploadStep(id, m.outcome));
      if m.outcome != Ok {
        return false;
      }
      if matched {
        return true;
      }
      CheckUploaded(id, again, user, bytes, since);
      return false;
    }

    /** Inserts the row: under a fresh identifier, for this user, with this moment as its creation. */
    method Create(id: Id, user: string, bytes: Bytes, m: Moment) returns (ok: bool)
      requires Valid() && UploadAt(id, Creating(user, bytes))
      requires forall i :: 0 <= i < |m.others| ==> ForeignToUpload(m.others[i], id)
      modifies this
      ensures Valid() && if ok then UploadAt(id, PuttingOriginal(bytes)) else id !in s.uploads
      ensures ok <==> m.outcome == Ok && id !in old(s).rows
      ensures ok ==> Owned(id, user, bytes, old(s).now) && s.rows[id].upload == Uploading && s.rows[id].Live()
    {
      ElapseUpload(id, Creating(user, bytes), m.others);
      var taken := id in s.rows;
      Do(UploadStep(id, m.outcome));
      return m.outcome == Ok && !taken;
    }

    method PutOriginal(id: Id, bytes: Bytes, m: Moment, ghost user: string, ghost since: nat) returns (ok: bool)
      requires Valid() && UploadAt(id, PuttingOriginal(bytes)) && Owned(id, user, bytes, since)
      requires s.rows[id].upload != Uploaded && forall i :: 0 <= i < |m.others| ==> ForeignToUpload(m.others[i], id)
      modifies this
      ensures Valid() && UploadAt(id, if ok then MarkingUploaded else MarkingFailed) && Owned(id, user, bytes, since)
      ensures ok == (m.outcome == Ok) && s.rows[id].upload != Uploaded && (m.others == [] ==> s.rows == old(s).rows)
      ensures ok ==> Original(id) in s.objects && s.objects[Original(id)] == bytes
    {
      ElapseUpload(id, PuttingOriginal(bytes), m.others);
      Do(UploadStep(id, m.outcome));
      return m.outcome == Ok;
    }

    method PublishUploaded(id: Id, m: Moment, ghost user: string, ghost bytes: Bytes, ghost since: nat)
      requires Valid() && UploadAt(id, PublishingUpload) && Owned(id, user, bytes, since)
      requires s.rows[id].upload == Uploaded
      requires forall i :: 0 <= i < |m.others| ==> ForeignToUpload(m.others[i], id)
      modifies this
      ensures Valid() && id !in s.uploads && Owned(id, user, bytes, since) && s.rows[id].upload == Uploaded
      ensures m.outcome != Fail ==> Sent(UploadEvent(id))
    {
      ElapseUpload(id, PublishingUpload, m.others);
      ghost var mid := s.next;
      Do(UploadStep(id, m.outcome));
      assert m.outcome != Fail ==> Announced(s.sent, mid, UploadEvent(id));
    }

    /** The event has reached the broker. */
    ghost predicate Sent(e: Event)
      reads this
    {
      IsAnnounced(s.sent, e)
    }

    method BeginUploading(id: Id, user: string, bytes: Bytes)
      requires Valid() && id !in s.uploads && WellFormed(id)
      modifies this
      ensures Valid() && UploadAt(id, Creating(user, bytes)) && s.rows == old(s).rows && s.now == old(s).now
    {
      Do(BeginUpload(id, user, bytes));
    }

    /** As long as an uploaded avatar is not deleted, its original is stored byte for byte. */
    lemma UploadedIsStored(id: Id, bytes: Bytes)
      requires Valid() && id in s.rows && s.rows[id].upload == Uploaded && s.rows[id].Live()
      requires id in s.born && s.born[id] == bytes
      ensures Inv(cfg, origin) ==> Original(id) in s.objects && s.objects[Original(id)] == bytes
    {
      if Inv(cfg, origin) {
        RunKeepsInv(cfg, origin, trace);
        assert RowOk(cfg, s, id);
        assert ObjectOk(cfg, s, Original(id));
      }
    }

    /**
     * Row, object, status, event, in this order. Success means that the caller now has an avatar of
     * these bytes that is uploaded, now and ever after; it is announced unless the publication, the
     * last call, has failed without effect. Under a fresh identifier the upload succeeds whenever its
     * first calls do, unless somebody closes the row meanwhile; if it does not, its row is left marked.
     */
    method Upload(id: Id, user: string, bytes: Bytes, ms: nat -> Moment) returns (ok: bool)
      requires Valid() && id !in s.uploads && WellFormed(id)
      requires forall i, j :: 0 <= j < |ms(i).others| ==> ForeignToUpload(ms(i).others[j], id)
      modifies this
      ensures Valid() && id !in s.uploads
      ensures ok ==> id in s.rows && s.rows[id].upload == Uploaded && s.rows[id].user == user
      ensures ok ==> id in s.born && s.born[id] == bytes && old(s).now <= s.rows[id].createdAt <= s.now
      ensures ok ==> id !in old(s).rows && (ms(5).outcome != Fail ==> Sent(UploadEvent(id)))
      ensures ok && Inv(cfg, origin) && s.rows[id].Live() ==>
                Original(id) in s.objects && s.objects[Original(id)] == bytes
      ensures id !in old(s).rows && ms(0).outcome == Ok && ms(1).outcome == Ok && ms(3).outcome == Ok ==>
                && (ok || (id in s.rows && s.rows[id].Closed()))
                && (ms(0).others == [] && ms(1).others == [] && ms(3).others == [] ==> ok)
      ensures !ok && id !in old(s).rows && ms(0).outcome == Ok && ms(2).outcome != Fail ==>
                id in s.rows && (s.rows[id].Live() ==> s.rows[id].upload != Uploading)
    {
      ghost var since := s.now;
      BeginUploading(id, user, bytes);
      ok := Create(id, user, bytes, ms(0));
      if !ok {
        return;
      }
      ok := PutOriginal(id, bytes, ms(1), user, since);
      if !ok {
        MarkFailed(id, ms(2));
        return;
      }
      ok := SetUploaded(id, ms(3), ms(4), user, bytes, since);
      if !ok {
        MarkFailed(id, ms(2));
        return;
      }
      PublishUploaded(id, ms(5), user, bytes, since);
      if s.rows[id].Live() {
        UploadedIsStored(id, bytes);
      }
    }

    // Server: delete

    predicate DeleteAt(d: nat, pc: DeletePc)
      reads this
    {
      d in s.deletes && d < s.next && s.deletes[d] == pc
    }

    method ElapseDelete(d: nat, pc: DeletePc, others: seq<Action>)
      requires Valid() && DeleteAt(d, pc) && forall i :: 0 <= i < |others| ==> ForeignToDelete(others[i], d)
      modifies this
      ensures Valid() && DeleteAt(d, pc)
      ensures pc.id in old(s).rows ==> pc.id in s.rows && Evolved(old(s).rows[pc.id], s.rows[pc.id])
    {
      OthersLeaveDelete(cfg, s, others, d);
      if pc.id in s.rows { RowsEvolve(cfg, s, others, pc.id); }
      Let(others);
    }

    method DeleteFiles(d: nat, id: Id, m: Moment) returns (ok: bool)
      requires Valid() && DeleteAt(d, DeletingFiles(id)) && id in s.rows
      requires forall i :: 0 <= i < |m.others| ==> ForeignToDelete(m.others[i], d)
      modifies this
      ensures Valid() && id in s.rows && Evolved(old(s).rows[id], s.rows[id])
      ensures ok == (m.outcome == Ok) && if ok then DeleteAt(d, MarkingRemoved(id)) else d !in s.deletes
      ensures ok ==> forall k :: k in StorageKeys(id) ==> k !in s.objects
    {
      ElapseDelete(d, DeletingFiles(id), m.others);
      Do(DeleteStep(d, m.outcome, m.gone));
      return m.outcome == Ok;
    }

    method MarkRemoved(d: nat, id: Id, m: Moment)
      requires Valid() && DeleteAt(d, MarkingRemoved(id)) && id in s.rows
      requires forall i :: 0 <= i < |m.others| ==> ForeignToDelete(m.others[i], d)
      modifies this
      ensures Valid() && d !in s.deletes && id in s.rows && Evolved(old(s).rows[id], s.rows[id])
      ensures m.outcome == Ok ==> s.rows[id].filesRemovedAt.Some?
    {
      ElapseDelete(d, MarkingRemoved(id), m.others);
      Do(DeleteStep(d, m.outcome, {}));
    }

    /** Removes the files at once, where the event could not be published. */
    method RemoveFiles(d: nat, id: Id, m: Moment, mark: Moment)
      requires Valid() && DeleteAt(d, DeletingFiles(id)) && id in s.rows
      requires forall i :: 0 <= i < |m.others| ==> ForeignToDelete(m.others[i], d)
      requires forall i :: 0 <= i < |mark.others| ==> ForeignToDelete(mark.others[i], d)
      modifies this
      ensures Valid() && d !in s.deletes && id in s.rows && Evolved(old(s).rows[id], s.rows[id])
      ensures m.outcome == Ok && mark.outcome == Ok ==> s.rows[id].filesRemovedAt.Some?
    {
      var ok := DeleteFiles(d, id, m);
      if !ok {
        return;
      }
      MarkRemoved(d, id, mark);
    }

    /** Reads the avatar and compares its owner with the caller. */
    method ReadOwned(d: nat, id: Id, requester: string, m: Moment) returns (err: Error)
      requires Valid() && DeleteAt(d, Reading(id, requester))
      requires forall i :: 0 <= i < |m.others| ==> ForeignToDelete(m.others[i], d)
      modifies this
      ensures Valid() && if err == NoError then DeleteAt(d, SoftDeleting(id)) else d !in s.deletes
      ensures Refusal(id, requester, err) && (err == NoError ==> id in s.rows && s.rows[id].user == requester)
      ensures err == Other <==> m.outcome != Ok
    {
      ElapseDelete(d, Reading(id, requester), m.others);
      err := if m.outcome != Ok then Other
             else if id !in s.rows || !s.rows[id].Live() then NotFound
             else if s.rows[id].user != requester then Forbidden
             else NoError;
      Do(DeleteStep(d, m.outcome, {}));
    }

    /** Each error says why: there is no such live row, or it belongs to somebody else. */
    predicate Refusal(id: Id, requester: string, err: Error)
      reads this
    {
      match err
      case NotFound => id in s.rows ==> s.rows[id].deletedAt.Some?
      case Forbidden => id in s.rows && s.rows[id].user != requester
      case InvalidTransition => false
      case _ => true
    }

    method SoftDeleteRow(d: nat, id: Id, requester: string, m: Moment) returns (err: Error)
      requires Valid() && DeleteAt(d, SoftDeleting(id)) && id in s.rows && s.rows[id].user == requester
      requires forall i :: 0 <= i < |m.others| ==> ForeignToDelete(m.others[i], d)
      modifies this
      ensures Valid() && Refusal(id, requester, err) && err != Forbidden
      ensures if err == NoError then DeleteAt(d, PublishingDelete(id)) && DeletedBy(id, requester) else d !in s.deletes
      ensures err == Other <==> m.outcome != Ok
    {
      ElapseDelete(d, SoftDeleting(id), m.others);
      err := if m.outcome != Ok then Other else if SoftDelete(s.rows[id], s.now).Some? then NoError else NotFound;
      Do(DeleteStep(d, m.outcome, {}));
    }

    predicate DeletedBy(id: Id, user: string)
      reads this
    {
      id in s.rows && s.rows[id].deletedAt.Some? && s.rows[id].user == user
    }

    method PublishDeleted(d: nat, id: Id, requester: string, m: Moment) returns (ok: bool)
      requires Valid() && DeleteAt(d, PublishingDelete(id)) && DeletedBy(id, requester)
      requires forall i :: 0 <= i < |m.others| ==> ForeignToDelete(m.others[i], d)
      modifies this
      ensures Valid() && DeletedBy(id, requester)
      ensures ok == (m.outcome == Ok) && if ok then d !in s.deletes else DeleteAt(d, DeletingFiles(id))
      ensures ok ==> Sent(DeleteEvent(id, StorageKeys(id)))
    {
      ElapseDelete(d, PublishingDelete(id), m.others);
      ghost var mid := s.next;
      Do(DeleteStep(d, m.outcome, {}));
      assert m.outcome == Ok ==> Announced(s.sent, mid, DeleteEvent(id, StorageKeys(id)));
      return m.outcome == Ok;
    }

    method BeginDeleting(id: Id, requester: string) returns (d: nat)
      requires Valid()
      modifies this
      ensures Valid() && d == old(s).next && DeleteAt(d, Reading(id, requester))
    {
      d := s.next;
      Do(BeginDelete(id, requester));
    }

    /**
     * Only the owner deletes, and each refusal says why. Success means that the row is deleted for
     * good. The removal of its files has been asked for, or done and recorded, or some call for it
     * has failed.
     */
    method Delete(id: Id, requester: string, ms: nat -> Moment) returns (err: Error)
      requires Valid()
      requires forall i, j :: 0 <= j < |ms(i).others| ==> ForeignToDelete(ms(i).others[j], s.next)
      modifies this
      ensures Valid() && old(s).next !in s.deletes && Refusal(id, requester, err)
      ensures err == Other ==> ms(0).outcome != Ok || ms(1).outcome != Ok
      ensures err == NoError ==> DeletedBy(id, requester)
      ensures err == NoError ==>
                if ms(2).outcome == Ok then Sent(DeleteEvent(id, StorageKeys(id)))
                else ms(3).outcome == Ok && ms(4).outcome == Ok ==> s.rows[id].filesRemovedAt.Some?
    {
      var d := BeginDeleting(id, requester);
      err := ReadOwned(d, id, requester, ms(0));
      if err != NoError {
        return;
      }
      err := SoftDeleteRow(d, id, requester, ms(1));
      if err != NoError {
        return;
      }
      var published := PublishDeleted(d, id, requester, ms(2));
      if !published {
        RemoveFiles(d, id, ms(3), ms(4));
      }
    }

    // Worker: reconciler pass

    predicate PassAt(p: nat, pc: PassPc)
      reads this
    {
      p in s.passes && p < s.next && s.passes[p] == pc && Numbered(s)
    }

    /** Every event of the list has reached the broker. */
    ghost predicate AllSent(events: seq<Event>)
      reads this
    {
      AllAnnounced(s.sent, events)
    }

    method ElapsePass(p: nat, pc: PassPc, others: seq<Action>, ghost events: seq<Event>)
      requires Valid() && PassAt(p, pc) && AllForeignToPass(others, p) && AllSent(events)
      modifies this
      ensures Valid() && PassAt(p, pc) && AllSent(events) && s == Run(cfg, old(s), others)
    {
      OthersLeavePass(cfg, s, others, p);
      AnnouncedStays(s.sent, Run(cfg, s, others).sent, events);
      Let(others);
    }

    /** Fails the uploads that have not got on since the cutoff. */
    method FailStaleUploads(p: nat, before: nat, m: Moment) returns (ok: bool)
      requires Valid() && PassAt(p, FailingStale(before)) && AllForeignToPass(m.others, p)
      modifies this
      ensures Valid() && PassAt(p, SelectingStuck(before)) && ok == (m.outcome == Ok)
      ensures ok && before <= s.now ==> Reconciler.StaleIds(s.rows, before) == {}
      ensures s == Step(cfg, Run(cfg, old(s), m.others), PassStep(p, m.outcome, []))
    {
      ElapsePass(p, FailingStale(before), m.others, []);
      Do(PassStep(p, m.outcome, []));
      return m.outcome == Ok;
    }

    /**
     * What a query made in this state yields: the longest waiting of the rows it is for, as many as the
     * batch allows, and of these what comes before it breaks off, if it does.
     */
    ghost predicate Found(seen: State, due: set<Id>, q: Query, all: seq<Id>, picked: seq<Id>) {
      Reconciler.Selected(seen.rows, due, cfg.batch, all) && picked == Read(all, q.breaksAfter)
    }

    /** The longest waiting of the uploads whose processing never began, as far as the query gets. */
    method SelectStuck(p: nat, before: nat, q: Query) returns (picked: seq<Id>, ok: bool, ghost all: seq<Id>)
      requires Valid() && PassAt(p, SelectingStuck(before)) && AllForeignToPass(q.others, p)
      modifies this
      ensures Valid() && PassAt(p, Republishing(before, picked)) && ok == q.breaksAfter.None?
      ensures var seen := Run(cfg, old(s), q.others);
        && Found(seen, Reconciler.StuckIds(seen.rows, before), q, all, picked)
        && s == Step(cfg, seen, PassStep(p, Ok, picked))
    {
      ElapsePass(p, SelectingStuck(before), q.others, []);
      var selected := Reconciler.SelectOldest(s.rows, Reconciler.StuckIds(s.rows, before), cfg.batch);
      picked, ok, all := Read(selected, q.breaksAfter), q.breaksAfter.None?, selected;
      PartIsPicked(s.rows, cfg.batch, selected, Reconciler.StuckIds(s.rows, before), q.breaksAfter);
      PassOnlyReads(cfg, s, p, Ok, picked, Some(Republishing(before, picked)));
      Do(PassStep(p, Ok, picked));
    }

    /** The longest waiting of the rows with files to remove, as far as the query gets. */
    method SelectUncleaned(p: nat, before: nat, q: Query, ghost events: seq<Event>)
      returns (picked: seq<Id>, ok: bool, ghost all: seq<Id>)
      requires Valid() && PassAt(p, Republishing(before, [])) && AllForeignToPass(q.others, p) && AllSent(events)
      modifies this
      ensures Valid() && PassAt(p, RepublishingCleanups(picked)) && AllSent(events) && ok == q.breaksAfter.None?
      ensures var seen := Run(cfg, old(s), q.others);
        Found(seen, Reconciler.UncleanedIds(seen.rows, before), q, all, picked)
    {
      ElapsePass(p, Republishing(before, []), q.others, events);
      var selected := Reconciler.SelectOldest(s.rows, Reconciler.UncleanedIds(s.rows, before), cfg.batch);
      picked, ok, all := Read(selected, q.breaksAfter), q.breaksAfter.None?, selected;
      PartIsPicked(s.rows, cfg.batch, selected, Reconciler.UncleanedIds(s.rows, before), q.breaksAfter);
      PassOnlyReads(cfg, s, p, Ok, picked, Some(RepublishingCleanups(picked)));
      Do(PassStep(p, Ok, picked));
    }

    method PublishUpload(p: nat, before: nat, rest: seq<Id>, m: Moment, ghost events: seq<Event>) returns (ok: bool)
      requires Valid() && rest != [] && PassAt(p, Republishing(before, rest)) && AllForeignToPass(m.others, p)
      requires AllSent(events)
      modifies this
      ensures Valid() && ok == (m.outcome == Ok) && PassAt(p, Republishing(before, if ok then rest[1..] else []))
      ensures AllSent(if ok then events + [UploadEvent(rest[0])] else events)
      ensures s == Step(cfg, Run(cfg, old(s), m.others), PassStep(p, m.outcome, []))
    {
      ElapsePass(p, Republishing(before, rest), m.others, events);
      ok := m.outcome == Ok;
      PassAnnounces(cfg, s, p, m.outcome, UploadEvent(rest[0]),
        Some(Republishing(before, if ok then rest[1..] else [])), events);
      Do(PassStep(p, m.outcome, []));
    }

    method PublishCleanup(p: nat, rest: seq<Id>, m: Moment, ghost events: seq<Event>) returns (ok: bool)
      requires Valid() && rest != [] && PassAt(p, RepublishingCleanups(rest)) && AllForeignToPass(m.others, p)
      requires AllSent(events)
      modifies this
      ensures Valid() && Numbered(s) && ok == (m.outcome == Ok)
      ensures if ok then PassAt(p, RepublishingCleanups(rest[1..])) else p !in s.passes
      ensures AllSent(if ok then events + [DeleteEvent(rest[0], StorageKeys(rest[0]))] else events)
    {
      ElapsePass(p, RepublishingCleanups(rest), m.others, events);
      ok := m.outcome == Ok;
      PassAnnounces(cfg, s, p, m.outcome, DeleteEvent(rest[0], StorageKeys(rest[0])),
        if ok then Some(RepublishingCleanups(rest[1..])) else None, events);
      Do(PassStep(p, m.outcome, []));
    }

    /** Publication number n of a part that began in state `from`; `after` names the states in between. */
    method PublishNextUpload(p: nat, before: nat, picked: seq<Id>, n: nat, ms: nat -> Moment,
                             ghost from: State, ghost after: nat -> State)
      returns (ok: bool)
      requires n < |picked| && Valid() && PassAt(p, Republishing(before, picked[n..]))
      requires AllForeignToPass(ms(n).others, p)
      requires AllSent(UploadEvents(picked[..n])) && Follows(cfg, from, p, ms, after) && s == after(n)
      modifies this
      ensures Valid() && ok == (ms(n).outcome == Ok)
      ensures PassAt(p, Republishing(before, if ok then picked[n + 1..] else []))
      ensures AllSent(UploadEvents(picked[..if ok then n + 1 else n])) && s == after(n + 1)
    {
      OneMoreUpload(picked, n);
      OneMoreCall(cfg, from, p, ms, n);
      ok := PublishUpload(p, before, picked[n..], ms(n), UploadEvents(picked[..n]));
    }

    method PublishNextCleanup(p: nat, picked: seq<Id>, n: nat, m: Moment, ghost events: seq<Event>) returns (ok: bool)
      requires n < |picked| && Valid() && PassAt(p, RepublishingCleanups(picked[n..])) && AllForeignToPass(m.others, p)
      requires AllSent(events + DeleteEvents(picked[..n]))
      modifies this
      ensures Valid() && Numbered(s) && ok == (m.outcome == Ok)
      ensures if ok then PassAt(p, RepublishingCleanups(picked[n + 1..])) else p !in s.passes
      ensures AllSent(events + DeleteEvents(picked[..if ok then n + 1 else n]))
    {
      OneMoreCleanup(events, picked, n);
      ok := PublishCleanup(p, picked[n..], m, events + DeleteEvents(picked[..n]));
    }

    /** Publishes the selected upload events up to the first error, and counts the successes. */
    method RepublishUploads(p: nat, before: nat, picked: seq<Id>, ms: nat -> Moment, ghost after: nat -> State)
      returns (published: nat)
      requires Valid() && PassAt(p, Republishing(before, picked)) && forall i :: AllForeignToPass(ms(i).others, p)
      requires Follows(cfg, s, p, ms, after) && s == after(0)
      modifies this
      ensures Valid() && PassAt(p, Republishing(before, [])) && published <= |picked|
      ensures forall i :: 0 <= i < published ==> ms(i).outcome == Ok
      ensures published < |picked| ==> ms(published).outcome != Ok
      ensures AllSent(UploadEvents(picked[..published]))
      ensures s == after(Tried(picked, published))
    {
      published := 0;
      ghost var from := s;
      while published < |picked|
        invariant published <= |picked| && Valid() && PassAt(p, Republishing(before, picked[published..]))
        invariant s == after(published)
        invariant forall i :: 0 <= i < published ==> ms(i).outcome == Ok
        invariant AllSent(UploadEvents(picked[..published]))
      {
        var ok := PublishNextUpload(p, before, picked, published, ms, from, after);
        if !ok { return; }
        published := published + 1;
      }
      assert picked[published..] == [];
    }

    method EndPass(p: nat, ghost events: seq<Event>)
      requires Valid() && PassAt(p, RepublishingCleanups([])) && AllSent(events)
      modifies this
      ensures Valid() && p !in s.passes && AllSent(events)
    {
      PassOnlyReads(cfg, s, p, Ok, [], None);
      Do(PassStep(p, Ok, []));
    }

    /** Publishes the selected delete events up to the first error, and counts the successes. */
    method RepublishCleanups(p: nat, picked: seq<Id>, ms: nat -> Moment, ghost events: seq<Event>)
      returns (published: nat)
      requires Valid() && PassAt(p, RepublishingCleanups(picked)) && (forall i :: AllForeignToPass(ms(i).others, p))
      requires AllSent(events)
      modifies this
      ensures Valid() && published <= |picked| && p !in s.passes
      ensures forall i :: 0 <= i < published ==> ms(i).outcome == Ok
      ensures published < |picked| ==> ms(published).outcome != Ok
      ensures AllSent(events + DeleteEvents(picked[..published]))
    {
      published := 0;
      assert events + DeleteEvents(picked[..0]) == events;
      while published < |picked|
        invariant published <= |picked| && Valid() && PassAt(p, RepublishingCleanups(picked[published..]))
        invariant forall i :: 0 <= i < published ==> ms(i).outcome == Ok
        invariant AllSent(events + DeleteEvents(picked[..published]))
      {
        var ok := PublishNextCleanup(p, picked, published, ms(published), events);
        if !ok { return; }
        published := published + 1;
      }
      assert picked[published..] == [];
      EndPass(p, events + DeleteEvents(picked[..published]));
    }

    method BeginReconciling() returns (p: nat, before: nat)
      requires Valid() && Numbered(s)
      modifies this
      ensures Valid() && p == old(s).next && before == Cutoff(cfg, old(s).now) && PassAt(p, FailingStale(before))
      ensures s == Step(cfg, old(s), BeginPass)
    {
      p, before := s.next, Cutoff(cfg, s.now);
      Do(BeginPass);
    }

    /** The stuck uploads' part of a pass: what its query finds when it is made is what it publishes. */
    method RepublishStuck(p: nat, before: nat, q: Query, ms: nat -> Moment)
      returns (picked: seq<Id>, published: nat, ok: bool, ghost all: seq<Id>)
      requires Valid() && PassAt(p, SelectingStuck(before)) && AllForeignToPass(q.others, p)
      requires forall i :: AllForeignToPass(ms(i).others, p)
      modifies this
      ensures Valid() && PassAt(p, Republishing(before, []))
      ensures Part(picked, q, published, ms) && ok == Whole(picked, q, published)
      ensures AllSent(UploadEvents(picked[..published]))
      ensures var seen := Run(cfg, old(s), q.others);
        && Found(seen, Reconciler.StuckIds(seen.rows, before), q, all, picked)
        && s == AfterPart(cfg, seen, p, picked, ms, Tried(picked, published))
    {
      picked, ok, all := SelectStuck(p, before, q);
      PartIsPicked(Run(cfg, old(s), q.others).rows, cfg.batch, all,
        Reconciler.StuckIds(Run(cfg, old(s), q.others).rows, before), q.breaksAfter);
      ghost var from := s;
      published := RepublishUploads(p, before, picked, ms, (n: nat) => AfterCalls(cfg, from, p, ms, n));
      ok := ok && published == |picked|;
    }

    /** The part of the rows with files to remove. */
    method RepublishUncleaned(p: nat, before: nat, q: Query, ms: nat -> Moment, ghost events: seq<Event>)
      returns (picked: seq<Id>, published: nat, ok: bool, ghost all: seq<Id>)
      requires Valid() && PassAt(p, Republishing(before, [])) && AllForeignToPass(q.others, p) && AllSent(events)
      requires forall i :: AllForeignToPass(ms(i).others, p)
      modifies this
      ensures Valid() && p !in s.passes
      ensures Part(picked, q, published, ms) && ok == Whole(picked, q, published)
      ensures AllSent(events + DeleteEvents(picked[..published]))
      ensures var seen := Run(cfg, old(s), q.others);
        Found(seen, Reconciler.UncleanedIds(seen.rows, before), q, all, picked)
    {
      picked, ok, all := SelectUncleaned(p, before, q, events);
      PartIsPicked(Run(cfg, old(s), q.others).rows, cfg.batch, all,
        Reconciler.UncleanedIds(Run(cfg, old(s), q.others).rows, before), q.breaksAfter);
      published := RepublishCleanups(p, picked, ms, events);
      ok := ok && published == |picked|;
    }

    /** One part of a pass: the rows that have come, published up to the first error. */
    predicate Part(picked: seq<Id>, q: Query, published: nat, ms: nat -> Moment) {
      && published <= |picked| <= cfg.batch
      && (q.breaksAfter.Some? ==> |picked| <= q.breaksAfter.value)
      && (forall i :: 0 <= i < published ==> ms(i).outcome == Ok)
      && (published < |picked| ==> ms(published).outcome != Ok)
    }

    /** All rows have come and have been published. */
    predicate Whole(picked: seq<Id>, q: Query, published: nat) {
      q.breaksAfter.None? && published == |picked|
    }

    /**
     * One pass: stale uploads are failed, upload events and then delete events are published anew.
     * Each part runs whatever became of the others. What its query finds at that moment is what a part
     * publishes; a query that breaks off or a failed publication ends its own part only, after the rows
     * before it, and the events counted have reached the broker. With nobody else at work, both parts
     * find the rows that are due in the table as it is once the stale uploads have been failed.
     */
    method Reconcile(m: Moment, q1: Query, uploads: nat -> Moment, q2: Query, cleanups: nat -> Moment)
      returns (stuck: seq<Id>, republished: nat, uncleaned: seq<Id>, cleaned: nat, ok: bool,
               ghost allStuck: seq<Id>, ghost allUncleaned: seq<Id>)
      requires Valid() && Numbered(s)
      requires AllForeignToPass(m.others, s.next) && AllForeignToPass(q1.others, s.next)
      requires AllForeignToPass(q2.others, s.next)
      requires forall i :: AllForeignToPass(uploads(i).others, s.next) && AllForeignToPass(cleanups(i).others, s.next)
      modifies this
      ensures Valid() && old(s).next !in s.passes
      ensures Part(stuck, q1, republished, uploads) && Part(uncleaned, q2, cleaned, cleanups)
      ensures ok <==> m.outcome == Ok && Whole(stuck, q1, republished) && Whole(uncleaned, q2, cleaned)
      ensures AllSent(UploadEvents(stuck[..republished]) + DeleteEvents(uncleaned[..cleaned]))
      ensures var p, before := old(s).next, Cutoff(cfg, old(s).now);
        var first := Run(cfg, AfterFailing(cfg, old(s), m), q1.others);
        var second := Run(cfg, AfterPart(cfg, first, p, stuck, uploads, Tried(stuck, republished)), q2.others);
        && Found(first, Reconciler.StuckIds(first.rows, before), q1, allStuck, stuck)
        && Found(second, Reconciler.UncleanedIds(second.rows, before), q2, allUncleaned, uncleaned)
      ensures Alone(m, q1, uploads, q2) && m.outcome != Fail ==>
                var before := Cutoff(cfg, old(s).now);
                var rows := Reconciler.FailedStale(old(s).rows, before, old(s).now);
                && Reconciler.Selected(rows, Reconciler.StuckIds(rows, before), cfg.batch, stuck)
                && Reconciler.Selected(rows, Reconciler.UncleanedIds(rows, before), cfg.batch, uncleaned)
                && |stuck| == Min(cfg.batch, |Reconciler.StuckIds(rows, before)|)
                && |uncleaned| == Min(cfg.batch, |Reconciler.UncleanedIds(rows, before)|)
    {
      var p, before := BeginReconciling();
      var failed := FailStaleUploads(p, before, m);
      var republishedAll, cleanedAll;
      stuck, republished, republishedAll, allStuck := RepublishStuck(p, before, q1, uploads);
      uncleaned, cleaned, cleanedAll, allUncleaned :=
        RepublishUncleaned(p, before, q2, cleanups, UploadEvents(stuck[..republished]));
      ok := failed && republishedAll && cleanedAll;
      if Alone(m, q1, uploads, q2) && m.outcome != Fail {
        PassAloneSees(cfg, old(s), m, stuck, uploads, Tried(stuck, republished));
      }
    }

    /** Nobody else acts until the second query is done, and neither query breaks off. */
    ghost predicate Alone(m: Moment, q1: Query, uploads: nat -> Moment, q2: Query) {
      m.others == [] && q1 == Query([], None) && q2 == Query([], None) && forall i :: uploads(i).others == []
    }
  }

  // Where a pass is, as a function of what happens

  /** Once stale uploads have been failed. */
  function AfterFailing(cfg: Config, s: State, m: Moment): State
    requires cfg.Valid()
  {
    Step(cfg, Run(cfg, Step(cfg, s, BeginPass), m.others), PassStep(s.next, m.outcome, []))
  }

  /** After so many publications, each made after steps of others. */
  function AfterCalls(cfg: Config, s: State, p: nat, ms: nat -> Moment, n: nat): State
    requires cfg.Valid()
  {
    if n == 0 then s
    else Step(cfg, Run(cfg, AfterCalls(cfg, s, p, ms, n - 1), ms(n - 1).others), PassStep(p, ms(n - 1).outcome, []))
  }

  /** `after` names the states after each number of publications. */
  ghost predicate Follows(cfg: Config, s: State, p: nat, ms: nat -> Moment, after: nat -> State)
    requires cfg.Valid()
  {
    forall n {:trigger AfterCalls(cfg, s, p, ms, n)} :: after(n) == AfterCalls(cfg, s, p, ms, n)
  }

  lemma OneMoreCall(cfg: Config, s: State, p: nat, ms: nat -> Moment, n: nat)
    requires cfg.Valid()
    ensures AfterCalls(cfg, s, p, ms, n + 1) ==
              Step(cfg, Run(cfg, AfterCalls(cfg, s, p, ms, n), ms(n).others), PassStep(p, ms(n).outcome, []))
  {
  }

  /** After a query has yielded these rows and so many publications have been tried. */
  function AfterPart(cfg: Config, seen: State, p: nat, picked: seq<Id>, ms: nat -> Moment, tried: nat): State
    requires cfg.Valid()
  {
    AfterCalls(cfg, Step(cfg, seen, PassStep(p, Ok, picked)), p, ms, tried)
  }

  /** All that succeeded, and the one that failed. */
  function Tried(picked: seq<Id>, published: nat): nat { if published < |picked| then published + 1 else published }

  predicate PastFailing(s: State, p: nat) { p in s.passes ==> !s.passes[p].FailingStale? }

  lemma LaterPassStepLeavesRows(cfg: Config, s: State, p: nat, o: Outcome, picked: seq<Id>)
    requires cfg.Valid() && PastFailing(s, p)
    ensures var s' := Step(cfg, s, PassStep(p, o, picked)); s'.rows == s.rows && PastFailing(s', p)
  {
  }

  lemma {:induction false} CallsLeaveRows(cfg: Config, s: State, p: nat, ms: nat -> Moment, n: nat)
    requires cfg.Valid() && PastFailing(s, p) && forall i :: ms(i).others == []
    ensures var s' := AfterCalls(cfg, s, p, ms, n); s'.rows == s.rows && PastFailing(s', p)
  {
    if n > 0 {
      CallsLeaveRows(cfg, s, p, ms, n - 1);
      LaterPassStepLeavesRows(cfg, AfterCalls(cfg, s, p, ms, n - 1), p, ms(n - 1).outcome, []);
    }
  }

  /** With nobody else at work, the rest of a pass sees the table with its stale uploads failed. */
  lemma PassAloneSees(cfg: Config, s: State, m: Moment, picked: seq<Id>, ms: nat -> Moment, tried: nat)
    requires cfg.Valid() && m.others == [] && m.outcome != Fail && forall i :: ms(i).others == []
    ensures var first := Run(cfg, AfterFailing(cfg, s, m), []);
      && first.rows == Reconciler.FailedStale(s.rows, Cutoff(cfg, s.now), s.now)
      && Run(cfg, AfterPart(cfg, first, s.next, picked, ms, tried), []).rows == first.rows
  {
    var begun, p := Step(cfg, s, BeginPass), s.next;
    var first := AfterFailing(cfg, s, m);
    assert begun == Occur(cfg, s, BeginPass) && begun.rows == s.rows && begun.now == s.now;
    assert begun.passes[p] == FailingStale(Cutoff(cfg, s.now));
    assert first == StepPass(cfg, begun, p, m.outcome, []);
    LaterPassStepLeavesRows(cfg, first, p, Ok, picked);
    CallsLeaveRows(cfg, Step(cfg, first, PassStep(p, Ok, picked)), p, ms, tried);
  }

  lemma PartIsPicked(rows: map<Id, Row>, batch: nat, all: seq<Id>, matching: set<Id>, breaksAfter: Option<nat>)
    requires Reconciler.Selected(rows, matching, batch, all)
    ensures |Read(all, breaksAfter)| <= batch && forall id :: id in Read(all, breaksAfter) ==> id in matching
    ensures breaksAfter.Some? ==> |Read(all, breaksAfter)| <= breaksAfter.value
  {
  }

  function UploadEvents(ids: seq<Id>): (events: seq<Event>)
    ensures |events| == |ids| && forall i :: 0 <= i < |ids| ==> events[i] == UploadEvent(ids[i])
  {
    seq(|ids|, i requires 0 <= i < |ids| => UploadEvent(ids[i]))
  }

  function DeleteEvents(ids: seq<Id>): (events: seq<Event>)
    ensures |events| == |ids| && forall i :: 0 <= i < |ids| ==> events[i] == DeleteEvent(ids[i], StorageKeys(ids[i]))
  {
    seq(|ids|, i requires 0 <= i < |ids| => DeleteEvent(ids[i], StorageKeys(ids[i])))
  }

  lemma OneMoreUpload(ids: seq<Id>, n: nat)
    requires n < |ids|
    ensures UploadEvents(ids[..n + 1]) == UploadEvents(ids[..n]) + [UploadEvent(ids[n])]
    ensures ids[n..][0] == ids[n] && ids[n..][1..] == ids[n + 1..]
  {
  }

  lemma OneMoreCleanup(events: seq<Event>, ids: seq<Id>, n: nat)
    requires n < |ids|
    ensures events + DeleteEvents(ids[..n + 1]) ==
              events + DeleteEvents(ids[..n]) + [DeleteEvent(ids[n], StorageKeys(ids[n]))]
    ensures ids[n..][0] == ids[n] && ids[n..][1..] == ids[n + 1..]
  {
  }
}
