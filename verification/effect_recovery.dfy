/** Resolving the indeterminate effects of a parked execution one by one, as
    _sqlite_recovery.py does it in one transaction per call. */
module EffectRecovery {
  import opened StrictJson

  datatype Decision = Applied | NotApplied
  datatype EffectState = Prepared | Performing | Committed | Indeterminate | Unapplied

  /** A row of the effect table. A response is its canonical text; `NULL` is no response. */
  datatype Effect = Effect(
    execution: string, state: EffectState, response: string, claim: Option<string>, preparedAt: real,
    committedAt: Option<real>, indeterminateAt: Option<real>, recoveryId: Option<string>, decision: Option<Decision>,
    resolvedAt: Option<real>, revision: nat)

  datatype Target = ToQueued | ToCancelled
  datatype ExecutionState = RecoveryRequired | Queued | Cancelled | Elsewhere

  /** A row of the execution table, as far as recovery reads and writes it. */
  datatype Execution = Execution(
    state: ExecutionState, pointer: Option<string>, target: Option<Target>, reason: Option<string>, revision: nat)

  datatype Kernel = Kernel(effects: map<string, Effect>, executions: map<string, Execution>)

  datatype Call = Call(
    effect: string, decision: Decision, response: string, expectedRevision: nat, recoveryId: string, now: real)

  datatype Refusal =
    | InvalidCall | UnknownEffect | IdentityImmutable | OtherDecision | StaleRevision | NotIndeterminate | NotParkedHere
    | ClockBehind | MissingReason

  datatype Result<T> = Ok(value: T) | Err(refusal: Refusal)

  const NULL := "null"

  /** The characters that Python's `strip` removes. */
  predicate Space(c: char)
  {
    var n := c as int;
    || 0x09 <= n <= 0x0D || 0x1C <= n <= 0x20 || n == 0x85 || n == 0xA0 || n == 0x1680 || 0x2000 <= n <= 0x200A
    || n == 0x2028 || n == 0x2029 || n == 0x202F || n == 0x205F || n == 0x3000
  }

  /** Nothing is left of the text when it is stripped. */
  predicate Blank(s: string) { forall i :: 0 <= i < |s| ==> Space(s[i]) }

  predicate ValidCall(c: Call)
  {
    (c.decision.NotApplied? ==> c.response == NULL) && c.expectedRevision >= 1 && !Blank(c.recoveryId)
  }

  predicate Reasoned(x: Execution) { x.reason.Some? && !Blank(x.reason.value) }

  /** The effects of an execution whose outcome is unknown. */
  function Unknown(k: Kernel, execution: string): set<string>
  {
    set e | e in k.effects && k.effects[e].execution == execution && k.effects[e].state == Indeterminate
  }

  /** A parked execution points at one of its own indeterminate effects. */
  predicate Parked(k: Kernel, x: string)
    requires x in k.executions
  {
    k.executions[x].state == RecoveryRequired ==>
      k.executions[x].pointer.Some? && k.executions[x].pointer.value in Unknown(k, x)
  }

  // ---------------------------------------------------------------- records

  /** What the record type demands of an effect before it is read or written. */
  predicate WellFormed(e: Effect)
  {
    && e.revision >= 1
    && (e.state.Prepared? || e.state.Performing? ==> e.response == NULL && e.committedAt.None?)
    && (e.state.Performing? ==> e.claim.Some?)
    && (e.state.Prepared? || e.state.Unapplied? ==> e.claim.None?)
    && (e.state.Committed? ==> e.committedAt.Some? && (e.indeterminateAt.Some? ==> e.recoveryId.Some?))
    && (e.state.Indeterminate? ==> e.indeterminateAt.Some? && e.committedAt.None? && e.recoveryId.None?)
    && (e.state.Unapplied? ==> e.indeterminateAt.Some? && e.committedAt.None? && e.response == NULL && e.decision == Some(NotApplied))
    && (e.recoveryId.Some? <==> e.decision.Some?) && (e.recoveryId.Some? <==> e.resolvedAt.Some?)
    && (e.decision == Some(Applied) ==> e.state.Committed?) && (e.recoveryId.Some? ==> e.indeterminateAt.Some?)
    && InTime(e)
  }

  /** An effect is prepared, then becomes indeterminate, then is resolved, then is committed. */
  predicate InTime(e: Effect)
  {
    && (e.committedAt.Some? ==> e.committedAt.value >= e.preparedAt)
    && (e.indeterminateAt.Some? ==> e.indeterminateAt.value >= e.preparedAt)
    && (e.resolvedAt.Some? ==> e.indeterminateAt.Some? && e.resolvedAt.value >= e.indeterminateAt.value)
    && (e.committedAt.Some? && e.resolvedAt.Some? ==> e.committedAt.value >= e.resolvedAt.value)
  }

  /** A decided effect is committed exactly if it was decided to be applied, and otherwise not applied. */
  predicate ShowsDecision(e: Effect)
  {
    e.decision.Some? ==>
      (e.state.Committed? <==> e.decision.value.Applied?) && (e.state.Unapplied? <==> e.decision.value.NotApplied?)
  }

  predicate Valid(k: Kernel)
  {
    && (forall e :: e in k.effects ==> k.effects[e].execution in k.executions)
    && (forall e :: e in k.effects ==> WellFormed(k.effects[e]) && ShowsDecision(k.effects[e]))
    && (forall x :: x in k.executions ==> Parked(k, x))
  }

  // ---------------------------------------------------------------- the order of effects

  predicate IsFirst(ids: set<string>, id: string)
  {
    id in ids && forall other :: other in ids ==> other == id || StringLess(id, other)
  }

  // ---------------------------------------------------------------- one call

  /** The effect after a fresh resolution. */
  function Resolved(e: Effect, c: Call): Effect
  {
    e.(state := if c.decision.Applied? then Committed else Unapplied,
       response := c.response,
       claim := if c.decision.Applied? then e.claim else None,
       committedAt := if c.decision.Applied? then Some(c.now) else None,
       recoveryId := Some(c.recoveryId), decision := Some(c.decision), resolvedAt := Some(c.now),
       revision := e.revision + 1)
  }

  /** A call that was made before, with the same identity, decision and response. */
  predicate Replays(k: Kernel, c: Call)
  {
    && c.effect in k.effects && k.effects[c.effect].recoveryId == Some(c.recoveryId)
    && k.effects[c.effect].decision == Some(c.decision)
    && (c.decision.NotApplied? || k.effects[c.effect].response == c.response)
  }

  /** A call that decides an effect for the first time. */
  predicate Fresh(k: Kernel, c: Call)
  {
    && c.effect in k.effects
    && var e := k.effects[c.effect];
       && e.recoveryId.None? && e.revision == c.expectedRevision && e.state == Indeterminate
       && e.execution in k.executions
       && var x := k.executions[e.execution];
          && x.state == RecoveryRequired && x.pointer == Some(c.effect)
          && (e.indeterminateAt.Some? ==> e.indeterminateAt.value <= c.now)
          && (Unknown(k, e.execution) == {c.effect} && x.target == Some(ToCancelled) ==> Reasoned(x))
  }

  class EffectKernel {
    var effects: map<string, Effect>
    var executions: map<string, Execution>

    ghost function Now(): Kernel
      reads this
    {
      Kernel(effects, executions)
    }

    constructor (effects: map<string, Effect>, executions: map<string, Execution>)
      requires Valid(Kernel(effects, executions))
      ensures this.effects == effects && this.executions == executions
    {
      this.effects, this.executions := effects, executions;
    }

    /** The first indeterminate effect of an execution, if there is one left. */
    method FirstUnknown(x: string) returns (first: Option<string>)
      ensures first.None? <==> Unknown(Now(), x) == {}
      ensures first.Some? ==> IsFirst(Unknown(Now(), x), first.value)
    {
      first := None;
      var rest := effects.Keys;
      while rest != {}
        invariant rest <= effects.Keys
        invariant first.None? ==> forall e :: e in Unknown(Now(), x) ==> e in rest
        invariant first.Some? ==>
          && first.value in Unknown(Now(), x)
          && forall e :: e in Unknown(Now(), x) && e !in rest ==> e == first.value || StringLess(first.value, e)
        decreases |rest|
      {
        var e :| e in rest;
        if effects[e].execution == x && effects[e].state == Indeterminate {
          if first.None? {
            first := Some(e);
          } else {
            StringLessTotal(e, first.value);
            if StringLess(e, first.value) {
              forall o | o in Unknown(Now(), x) && o !in rest && o != first.value ensures StringLess(e, o) {
                StringLessTransitive(e, first.value, o);
              }
              first := Some(e);
            }
          }
        }
        rest := rest - {e};
      }
    }

    /** One explicit decision. It either repeats an earlier one and changes nothing, or decides
        the effect that the execution is parked for and moves the execution on: to its next
        indeterminate effect, or, when none is left, to its durable target. */
    method ResolveEffect(c: Call) returns (r: Result<Effect>)
      requires Valid(Now())
      modifies this
      ensures Valid(Now())
      ensures r.Ok? <==> ValidCall(c) && (Replays(old(Now()), c) || Fresh(old(Now()), c))
      ensures r.Err? || Replays(old(Now()), c) ==> Now() == old(Now())
      ensures r.Ok? ==> c.effect in effects && r.value == effects[c.effect]
      ensures r.Ok? && Fresh(old(Now()), c) ==> Decided(old(Now()), Now(), c)
    {
      if !ValidCall(c) { return Err(InvalidCall); }
      if c.effect !in effects { return Err(UnknownEffect); }
      var record := effects[c.effect];
      if record.recoveryId == Some(c.recoveryId) {
        return if record.decision == Some(c.decision) && (c.decision.NotApplied? || record.response == c.response)
               then Ok(record) else Err(IdentityImmutable);
      }
      if record.recoveryId.Some? { return Err(OtherDecision); }
      if record.revision != c.expectedRevision { return Err(StaleRevision); }
      if record.state != Indeterminate { return Err(NotIndeterminate); }
      var x := record.execution;
      var execution := executions[x];
      if execution.state != RecoveryRequired || execution.pointer != Some(c.effect) { return Err(NotParkedHere); }
      if record.indeterminateAt.Some? && c.now < record.indeterminateAt.value { return Err(ClockBehind); }
      ghost var before := Now();
      var saved := effects;
      effects := effects[c.effect := Resolved(record, c)];
      UnknownLess(before, Now(), c);
      var remaining := FirstUnknown(x);
      if remaining.Some? {
        executions := executions[x := execution.(pointer := remaining, revision := execution.revision + 1)];
      } else if execution.target == Some(ToCancelled) {
        if !Reasoned(execution) {
          effects := saved;
          return Err(MissingReason);
        }
        executions := executions[x := Execution(Cancelled, None, None, None, execution.revision + 1)];
      } else {
        executions := executions[x := Execution(Queued, None, None, None, execution.revision + 1)];
      }
      KeepsValid(before, Now(), c);
      return Ok(effects[c.effect]);
    }
  }

  /** What a fresh decision does, and all that it does. */
  ghost predicate Decided(k: Kernel, v: Kernel, c: Call)
    requires Fresh(k, c)
  {
    var x := k.effects[c.effect].execution;
    var old' := k.executions[x];
    && v.effects == k.effects[c.effect := Resolved(k.effects[c.effect], c)]
    && x in v.executions && v.executions == k.executions[x := v.executions[x]]
    && v.executions[x].revision == old'.revision + 1
    && Unknown(v, x) == Unknown(k, x) - {c.effect}
    && if Unknown(v, x) != {} then
         && v.executions[x].state == RecoveryRequired && v.executions[x].pointer.Some?
         && IsFirst(Unknown(v, x), v.executions[x].pointer.value)
         && v.executions[x].target == old'.target && v.executions[x].reason == old'.reason
       else
         && v.executions[x].state == (if old'.target == Some(ToCancelled) then Cancelled else Queued)
         && v.executions[x].pointer.None? && v.executions[x].target.None?
  }

  lemma UnknownLess(k: Kernel, v: Kernel, c: Call)
    requires c.effect in k.effects && k.effects[c.effect].state == Indeterminate
    requires v.effects == k.effects[c.effect := Resolved(k.effects[c.effect], c)]
    ensures forall x :: Unknown(v, x) == Unknown(k, x) - {c.effect}
  {
  }

  lemma ResolvedIsWellFormed(e: Effect, c: Call)
    requires WellFormed(e) && e.state == Indeterminate && ValidCall(c)
    requires e.indeterminateAt.Some? ==> e.indeterminateAt.value <= c.now
    ensures WellFormed(Resolved(e, c)) && ShowsDecision(Resolved(e, c))
  {
  }

  lemma KeepsValid(k: Kernel, v: Kernel, c: Call)
    requires Valid(k) && ValidCall(c) && Fresh(k, c) && Decided(k, v, c)
    ensures Valid(v)
  {
    UnknownLess(k, v, c);
    ResolvedIsWellFormed(k.effects[c.effect], c);
    hide WellFormed, ShowsDecision, Resolved;
    var x := k.effects[c.effect].execution;
    forall y | y in v.executions ensures Parked(v, y) {
      if y != x { assert Parked(k, y); }
    }
  }

  /** What the row says after a fresh decision, and how every later call for the effect is answered:
      one with the same identity, decision and outcome repeats it, and every other one is refused. */
  lemma DecisionIsRecorded(k: Kernel, v: Kernel, c: Call, later: Call)
    requires Valid(k) && ValidCall(c) && Fresh(k, c) && Decided(k, v, c) && later.effect == c.effect
    ensures c.effect in v.effects
    ensures var e, e' := k.effects[c.effect], v.effects[c.effect];
            && (e'.state == Committed <==> c.decision == Applied) && (e'.state == Unapplied <==> c.decision == NotApplied)
            && (c.decision == Applied ==> e'.committedAt == Some(c.now) && e'.response == c.response && e'.claim == e.claim)
            && e'.recoveryId == Some(c.recoveryId) && e'.decision == Some(c.decision) && e'.resolvedAt == Some(c.now)
            && e'.execution == e.execution && e'.preparedAt == e.preparedAt && e'.indeterminateAt == e.indeterminateAt
            && e'.revision == e.revision + 1
    ensures Replays(v, c) && !Fresh(v, later)
    ensures Replays(v, later) <==>
      && later.recoveryId == c.recoveryId && later.decision == c.decision
      && (c.decision == Applied ==> later.response == c.response)
  {
    hide Valid, Unknown;
  }

  // ---------------------------------------------------------------- any series of calls

  /** What one call may do: nothing (refused or repeated), or decide an effect. */
  ghost predicate Answers(k: Kernel, v: Kernel, c: Call)
  {
    v == k || (ValidCall(c) && Fresh(k, c) && Decided(k, v, c))
  }

  /** The states before, between and after a series of calls. */
  ghost predicate Series(states: seq<Kernel>, calls: seq<Call>)
  {
    && |states| == |calls| + 1 && Valid(states[0])
    && forall i :: 0 <= i < |calls| ==> Answers(states[i], states[i + 1], calls[i])
  }

  /** How many of the calls decided an effect of one execution. */
  ghost function Decisions(states: seq<Kernel>, calls: seq<Call>, x: string): nat
    requires |states| == |calls| + 1
    decreases |calls|
  {
    if calls == [] then 0
    else
      var n := |calls| - 1;
      var k, c := states[n], calls[n];
      Decisions(states[..n + 1], calls[..n], x)
      + if states[n + 1] != k && c.effect in k.effects && k.effects[c.effect].execution == x then 1 else 0
  }

  lemma OneCall(k: Kernel, v: Kernel, c: Call, x: string)
    requires Valid(k) && Answers(k, v, c) && x in k.executions
    ensures Valid(v) && x in v.executions
    ensures |Unknown(v, x)| + (if v != k && c.effect in k.effects && k.effects[c.effect].execution == x then 1 else 0)
         == |Unknown(k, x)|
    ensures k.executions[x].state == RecoveryRequired ==>
      if Unknown(v, x) != {} then
        v.executions[x].state == RecoveryRequired && v.executions[x].target == k.executions[x].target
      else v.executions[x].state == (if k.executions[x].target == Some(ToCancelled) then Cancelled else Queued)
    ensures k.executions[x].state != RecoveryRequired ==> v.executions[x] == k.executions[x]
  {
    assert Parked(k, x);
    if v != k {
      UnknownLess(k, v, c);
      KeepsValid(k, v, c);
      if k.effects[c.effect].execution == x {
        assert c.effect in Unknown(k, x);
      } else {
        assert c.effect !in Unknown(k, x);
        assert Unknown(v, x) == Unknown(k, x);
      }
    }
  }

  /** Each decision removes exactly one unknown effect, whatever other calls come in between; the
      execution stays parked exactly as long as one is left, and then is at its durable target. */
  lemma {:induction false} DrainsOneByOne(states: seq<Kernel>, calls: seq<Call>, x: string)
    requires Series(states, calls) && x in states[0].executions && states[0].executions[x].state == RecoveryRequired
    ensures var first, last := states[0], states[|calls|];
            && Valid(last) && x in last.executions
            && |Unknown(last, x)| + Decisions(states, calls, x) == |Unknown(first, x)|
            && if Unknown(last, x) != {} then
                 last.executions[x].state == RecoveryRequired && last.executions[x].target == first.executions[x].target
               else last.executions[x].state == (if first.executions[x].target == Some(ToCancelled) then Cancelled else Queued)
    decreases |calls|
  {
    hide Answers, Valid, Unknown;
    if calls == [] {
      assert Unknown(states[0], x) != {} by { AtLeastOne(states[0], x); }
    } else {
      var n := |calls| - 1;
      assert states[..n + 1][n] == states[n];
      DrainsOneByOne(states[..n + 1], calls[..n], x);
      OneCall(states[n], states[n + 1], calls[n], x);
    }
  }

  lemma AtLeastOne(k: Kernel, x: string)
    requires Valid(k) && x in k.executions && k.executions[x].state == RecoveryRequired
    ensures Unknown(k, x) != {}
  {
    assert Parked(k, x);
  }

  /** A decided effect is never touched again. */
  lemma {:induction false} DecisionIsFinal(states: seq<Kernel>, calls: seq<Call>, e: string)
    requires Series(states, calls) && e in states[0].effects && states[0].effects[e].recoveryId.Some?
    ensures e in states[|calls|].effects && states[|calls|].effects[e] == states[0].effects[e]
    decreases |calls|
  {
    hide Valid, Unknown;
    if calls != [] {
      var n := |calls| - 1;
      assert states[..n + 1][n] == states[n];
      DecisionIsFinal(states[..n + 1], calls[..n], e);
      assert Answers(states[n], states[n + 1], calls[n]);
    }
  }
}
