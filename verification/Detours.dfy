/**
 The two static detours and their once-only initialisation, as in
 burnt-sushi-blocker/src/hooks.rs. `F` is the filter store a detour captures and `L` the log
 sender; both are references, so what matters about them is which object they name.
 */
module Detours {
  import opened Wrappers

  datatype Detour<F, L> = Fresh | Ready(filters: F, log: L, on: bool) {
    predicate IsOn() {
      Ready? && on
    }

    /** `other` is this detour up to being switched, so a captured store is never exchanged. */
    ghost predicate KeptBy(other: Detour<F, L>) {
      Ready? ==> other == Ready(filters, log, false) || other == Ready(filters, log, true)
    }
  }

  datatype Pair<F, L> = Pair(gai: Detour<F, L>, cef: Detour<F, L>) {
    predicate BothOn() {
      gai.IsOn() && cef.IsOn()
    }

    predicate BothOff() {
      !gai.IsOn() && !cef.IsOn()
    }
  }

  /** `OnceLock::get_or_try_init` around a detour's initialisation; `ok` is what that would return. */
  function Init<F, L>(d: Detour<F, L>, filters: F, log: L, ok: bool): Option<Detour<F, L>> {
    if d.Ready? then Some(d) else if ok then Some(Ready(filters, log, false)) else None
  }

  function TurnOn<F, L>(d: Detour<F, L>, ok: bool): Option<Detour<F, L>> {
    if d.Fresh? then None
    else if d.on then Some(d)
    else if ok then Some(d.(on := true)) else None
  }

  function TurnOff<F, L>(d: Detour<F, L>, ok: bool): Option<Detour<F, L>> {
    if !d.IsOn() then Some(d) else if ok then Some(d.(on := false)) else None
  }

  /** Which of the four fallible steps of `enable` would succeed. */
  datatype EnableFaults = EnableFaults(initGai: bool, initCef: bool, onGai: bool, onCef: bool)

  /** `enable`: the state it leaves behind and whether it returned `Ok`. */
  function Enable<F, L>(p: Pair<F, L>, filters: F, log: L, o: EnableFaults): (r: (Pair<F, L>, bool)) {
    match Init(p.gai, filters, log, o.initGai)
    case None => (p, false)
    case Some(gai0) =>
      match Init(p.cef, filters, log, o.initCef)
      case None => (Pair(gai0, p.cef), false)
      case Some(cef0) =>
        match TurnOn(gai0, o.onGai)
        case None => (Pair(gai0, cef0), false)
        case Some(gai1) =>
          match TurnOn(cef0, o.onCef)
          case None => (Pair(gai1, cef0), false)
          case Some(cef1) => (Pair(gai1, cef1), true)
  }

  /** `disable`: the state it leaves behind and whether it returned `Ok`. */
  function Disable<F, L>(p: Pair<F, L>, offGai: bool, offCef: bool): (r: (Pair<F, L>, bool)) {
    match TurnOff(p.gai, offGai)
    case None => (p, false)
    case Some(gai) =>
      match TurnOff(p.cef, offCef)
      case None => (p.(gai := gai), false)
      case Some(cef) => (Pair(gai, cef), true)
  }

  // ---------------------------------------------------------------- any sequence of calls in one load

  datatype HookCall<F, L> =
    | EnableCall(filters: F, log: L, o: EnableFaults)
    | DisableCall(offGai: bool, offCef: bool)

  function Apply<F, L>(p: Pair<F, L>, c: HookCall<F, L>): (Pair<F, L>, bool) {
    match c
    case EnableCall(filters, log, o) => Enable(p, filters, log, o)
    case DisableCall(offGai, offCef) => Disable(p, offGai, offCef)
  }

  /** The detours of a fresh load after `calls`. */
  function After<F, L>(calls: seq<HookCall<F, L>>): Pair<F, L> {
    if calls == [] then Pair(Fresh, Fresh)
    else Apply(After(calls[..|calls| - 1]), calls[|calls| - 1]).0
  }

  predicate InitsGai<F, L>(calls: seq<HookCall<F, L>>, i: nat) {
    i < |calls| && calls[i].EnableCall? && calls[i].o.initGai
  }

  /** The second detour is reached only once the first is initialised. */
  predicate InitsCef<F, L>(calls: seq<HookCall<F, L>>, i: nat) {
    i < |calls| && calls[i].EnableCall? && calls[i].o.initCef && exists j :: 0 <= j <= i && InitsGai(calls, j)
  }

  ghost predicate FirstGai<F, L>(calls: seq<HookCall<F, L>>, i: nat) {
    InitsGai(calls, i) && forall j: nat :: j < i ==> !InitsGai(calls, j)
  }

  ghost predicate FirstCef<F, L>(calls: seq<HookCall<F, L>>, i: nat) {
    InitsCef(calls, i) && forall j: nat :: j < i ==> !InitsCef(calls, j)
  }

  /** Earlier calls decide the same whether or not one more call follows. */
  lemma PrefixGai<F, L>(calls: seq<HookCall<F, L>>, i: nat)
    requires i < |calls| - 1
    ensures InitsGai(calls[..|calls| - 1], i) == InitsGai(calls, i)
    ensures FirstGai(calls[..|calls| - 1], i) == FirstGai(calls, i)
  {
    var before := calls[..|calls| - 1];
    assert forall j: nat :: j <= i ==> InitsGai(before, j) == InitsGai(calls, j);
  }

  lemma PrefixInitsCef<F, L>(calls: seq<HookCall<F, L>>, i: nat)
    requires i < |calls| - 1
    ensures InitsCef(calls[..|calls| - 1], i) == InitsCef(calls, i)
  {
    var before := calls[..|calls| - 1];
    assert forall j: nat :: j <= i ==> InitsGai(before, j) == InitsGai(calls, j);
  }

  lemma PrefixCef<F, L>(calls: seq<HookCall<F, L>>, i: nat)
    requires i < |calls| - 1
    ensures FirstCef(calls[..|calls| - 1], i) == FirstCef(calls, i)
  {
    var before := calls[..|calls| - 1];
    forall j: nat | j <= i ensures InitsCef(before, j) <==> InitsCef(calls, j) {
      PrefixInitsCef(calls, j);
    }
    assert FirstCef(before, i) ==> forall j: nat :: j < i ==> !InitsCef(before, j);
    assert FirstCef(calls, i) ==> forall j: nat :: j < i ==> !InitsCef(calls, j);
  }

  /** What one call does to the first detour. */
  lemma GaiStep<F, L>(p: Pair<F, L>, c: HookCall<F, L>)
    ensures var q := Apply(p, c).0;
      && (q.gai.Ready? <==> p.gai.Ready? || (c.EnableCall? && c.o.initGai))
      && p.gai.KeptBy(q.gai)
      && (!p.gai.Ready? && q.gai.Ready? ==> q.gai.filters == c.filters && q.gai.log == c.log)
  {
  }

  /** What one call does to the second. */
  lemma CefStep<F, L>(p: Pair<F, L>, c: HookCall<F, L>)
    ensures var q := Apply(p, c).0;
      && (q.cef.Ready? <==> p.cef.Ready? || (c.EnableCall? && c.o.initCef && q.gai.Ready?))
      && p.cef.KeptBy(q.cef)
      && (!p.cef.Ready? && q.cef.Ready? ==> q.cef.filters == c.filters && q.cef.log == c.log)
  {
  }

  /** The first detour is initialised exactly if some call could do it. */
  lemma {:induction false} GaiReadyIff<F, L>(calls: seq<HookCall<F, L>>)
    ensures After(calls).gai.Ready? <==> exists i: nat :: InitsGai(calls, i)
  {
    if calls != [] {
      var n: nat := |calls| - 1;
      GaiReadyIff(calls[..n]);
      GaiStep(After(calls[..n]), calls[n]);
      if i: nat :| InitsGai(calls[..n], i) {
        PrefixGai(calls, i);
      }
      if InitsGai(calls, n) {
      } else if i: nat :| InitsGai(calls, i) {
        PrefixGai(calls, i);
      }
    }
  }

  /** It holds what the first such call passed. */
  lemma {:induction false} GaiHolds<F, L>(calls: seq<HookCall<F, L>>, i: nat)
    requires FirstGai(calls, i)
    ensures var d := After(calls).gai; d.Ready? && d.filters == calls[i].filters && d.log == calls[i].log
    decreases |calls|
  {
    var n: nat := |calls| - 1;
    GaiStep(After(calls[..n]), calls[n]);
    if i < n {
      PrefixGai(calls, i);
      GaiHolds(calls[..n], i);
    } else {
      GaiReadyIff(calls[..n]);
      if j: nat :| InitsGai(calls[..n], j) {
        PrefixGai(calls, j);
      }
    }
  }

  /** The call just made could initialise the second detour. */
  lemma LastInitsCef<F, L>(calls: seq<HookCall<F, L>>)
    requires calls != []
    ensures InitsCef(calls, |calls| - 1) <==>
      calls[|calls| - 1].EnableCall? && calls[|calls| - 1].o.initCef && After(calls).gai.Ready?
  {
    GaiReadyIff(calls);
  }

  /** The same for the second detour. */
  lemma {:induction false} CefReadyIff<F, L>(calls: seq<HookCall<F, L>>)
    ensures After(calls).cef.Ready? <==> exists i: nat :: InitsCef(calls, i)
  {
    if calls != [] {
      var n: nat := |calls| - 1;
      CefReadyIff(calls[..n]);
      CefStep(After(calls[..n]), calls[n]);
      LastInitsCef(calls);
      if i: nat :| InitsCef(calls[..n], i) {
        PrefixInitsCef(calls, i);
      }
      if InitsCef(calls, n) {
      } else if i: nat :| InitsCef(calls, i) {
        PrefixInitsCef(calls, i);
      }
    }
  }

  lemma {:induction false} CefHolds<F, L>(calls: seq<HookCall<F, L>>, i: nat)
    requires FirstCef(calls, i)
    ensures var d := After(calls).cef; d.Ready? && d.filters == calls[i].filters && d.log == calls[i].log
    decreases |calls|
  {
    var n: nat := |calls| - 1;
    CefStep(After(calls[..n]), calls[n]);
    if i < n {
      PrefixCef(calls, i);
      CefHolds(calls[..n], i);
    } else {
      LastInitsCef(calls);
      CefReadyIff(calls[..n]);
      if j: nat :| InitsCef(calls[..n], j) {
        PrefixInitsCef(calls, j);
      }
    }
  }

  /**
   Over any calls with any failures, a detour is initialised exactly if some call could initialise
   it, and what it holds for the rest of the load is what the first such call passed in.
   */
  lemma FirstInitialisationWins<F, L>(calls: seq<HookCall<F, L>>)
    ensures var p := After(calls);
      && (p.gai.Ready? <==> exists i: nat :: InitsGai(calls, i))
      && (p.cef.Ready? <==> exists i: nat :: InitsCef(calls, i))
      && (forall i: nat :: FirstGai(calls, i) ==>
            p.gai.Ready? && p.gai.filters == calls[i].filters && p.gai.log == calls[i].log)
      && (forall i: nat :: FirstCef(calls, i) ==>
            p.cef.Ready? && p.cef.filters == calls[i].filters && p.cef.log == calls[i].log)
  {
    GaiReadyIff(calls);
    CefReadyIff(calls);
    var p := After(calls);
    forall i: nat | FirstGai(calls, i)
      ensures p.gai.Ready? && p.gai.filters == calls[i].filters && p.gai.log == calls[i].log
    {
      GaiHolds(calls, i);
    }
    forall i: nat | FirstCef(calls, i)
      ensures p.cef.Ready? && p.cef.filters == calls[i].filters && p.cef.log == calls[i].log
    {
      CefHolds(calls, i);
    }
  }

  /** A call reports success exactly when both detours end as it asks, and never replaces what they hold. */
  lemma CallOutcome<F, L>(p: Pair<F, L>, c: HookCall<F, L>)
    ensures var (q, ok) := Apply(p, c);
      && p.gai.KeptBy(q.gai) && p.cef.KeptBy(q.cef)
      && (c.EnableCall? && ok ==> q.BothOn())
      && (c.DisableCall? ==> (ok <==> q.BothOff()))
  {
  }
}
