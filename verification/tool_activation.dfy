/**
 Activation of the tool profile. An activation runs up to its first await, then continues when its
 configuration has loaded and again when its capabilities are resolved. Session events, setting
 changes and the continuations of overlapping activations interleave freely; a generation stamp
 tells which activation is the latest. Each step below is one uninterrupted piece of that code.
 */
module ToolActivation {
  import opened Outcomes
  import opened ToolProfile

  /** What a configuration means for the selected model: whether Codex is active for it, and its capability key. */
  datatype Config = Config(active: bool, key: Key)

  /** What an activation starts from: the selected model's identity, the policy's verdict, and a supplied configuration. */
  datatype Opening = Opening(model: Option<string>, policyActive: bool, supplied: Option<Config>) {
    predicate Active() {
      model.Some? && (if supplied.Some? then supplied.value.active else policyActive)
    }

    function SuppliedKey(): Option<Key> {
      if Active() && supplied.Some? then Some(supplied.value.key) else None
    }
  }

  /** A suspended activation. */
  datatype Frame =
    | AwaitingConfig(model: Option<string>, failClosed: bool)
    | AwaitingCapabilities(model: Option<string>, key: Key)
  {
    predicate FailsClosed() { AwaitingCapabilities? || failClosed }
  }

  /** The model and capability key of the most recent activation; history, not stored by the program. */
  datatype Latest = Latest(model: Option<string>, key: Option<Key>)

  datatype State = State(
    profile: Profile, generation: nat, lastKey: Option<Key>, lastModel: Option<string>,
    session: bool, subscribed: bool, frames: map<nat, Frame>, latest: Latest)

  function Initial(profile: Profile): State {
    State(profile, 0, None, None, false, true, map[], Latest(None, None))
  }

  datatype Event =
    | SessionEvent(opening: Opening, tools: Registry)
    | ConfigChanged(opening: Opening, tools: Registry)
    | ConfigLoaded(frame: nat, config: Config, tools: Registry)
    | CapabilitiesResolved(frame: nat, shown: seq<Name>, loader: Option<Name>, tools: Registry)
    | Threw(frame: nat, tools: Registry)
    | Shutdown(tools: Registry)
    | OutsideEdit(next: seq<Name>)

  function Forget(s: State, profile: Profile): State {
    s.(profile := profile, lastKey := None, lastModel := None)
  }

  predicate Reusable(s: State, opening: Opening) {
    && s.profile.readiness.HealthyFor? && s.lastKey.Some? && s.lastModel == opening.model
    && (opening.SuppliedKey().Some? ==> s.profile.readiness == HealthyFor(opening.SuppliedKey().value))
  }

  /** The part of an activation before its configuration is known. */
  function Opened(s: State, opening: Opening, tools: Registry): State {
    var t := s.(generation := s.generation + 1, latest := Latest(opening.model, None));
    if !opening.Active() then Forget(t, PiRestored(t.profile, tools)) else
    if Reusable(s, opening) then t else t.(profile := PendingEntered(t.profile, tools, opening.SuppliedKey()))
  }

  /** The profile once the configuration is known: switched off, checked again, or pending. */
  function Prepared(p: Profile, model: Option<string>, config: Config, tools: Registry, expected: Option<string>): Profile {
    if model.None? || !config.active then PiRestored(p, tools) else
    if p.readiness == HealthyFor(config.key) then Revalidated(p, tools, true, expected)
    else PendingEntered(p, tools, Some(config.key))
  }

  predicate Proceeds(p: Profile) { IsHealthy(p) || p.readiness.PendingFor? }

  /** The part between knowing the configuration and asking for the capabilities. */
  function Configured(s: State, model: Option<string>, config: Config, tools: Registry, expected: Option<string>): State {
    var t := s.(latest := Latest(s.latest.model, Some(config.key)));
    var p := Prepared(s.profile, model, config, tools, expected);
    if Proceeds(p) then t.(profile := p, frames := s.frames[s.generation := AwaitingCapabilities(model, config.key)])
    else Forget(t, p)
  }

  function Activated(s: State, opening: Opening, tools: Registry, expected: Option<string>): State {
    var t := Opened(s, opening, tools);
    match opening.supplied
    case None => t.(frames := t.frames[t.generation := AwaitingConfig(opening.model, opening.Active())])
    case Some(config) => Configured(t, opening.model, config, tools, expected)
  }

  function Installed(s: State, frame: Frame, shown: seq<Name>, loader: Option<Name>, tools: Registry, expected: Option<string>): State
    requires frame.AwaitingCapabilities?
  {
    var p := HealthyInstalled(s.profile, tools, frame.key, shown, loader, true, expected);
    if IsHealthy(p) then s.(profile := p, lastKey := Some(frame.key), lastModel := frame.model) else Forget(s, p)
  }

  function Failed(s: State, frame: Frame, tools: Registry): State {
    Forget(s, if frame.FailsClosed() then UnavailableInstalled(s.profile, tools, None, None, false)
              else PiRestored(s.profile, tools))
  }

  /** A continuation belongs to a suspended activation that waits for just this. */
  predicate Continues(s: State, event: Event) {
    match event
    case ConfigLoaded(frame, _, _) => frame in s.frames && s.frames[frame].AwaitingConfig?
    case CapabilitiesResolved(frame, _, _, _) => frame in s.frames && s.frames[frame].AwaitingCapabilities?
    case Threw(frame, _) => frame in s.frames
    case _ => false
  }

  predicate IsContinuation(event: Event) {
    event.ConfigLoaded? || event.CapabilitiesResolved? || event.Threw?
  }

  function Continued(s: State, event: Event, expected: Option<string>): State
    requires Continues(s, event)
  {
    var frame, t := s.frames[event.frame], s.(frames := s.frames - {event.frame});
    if event.frame != s.generation then t else
    match event
    case ConfigLoaded(_, config, tools) => Configured(t, frame.model, config, tools, expected)
    case CapabilitiesResolved(_, shown, loader, tools) => Installed(t, frame, shown, loader, tools, expected)
    case Threw(_, tools) => Failed(t, frame, tools)
  }

  function Happen(s: State, event: Event, expected: Option<string>): State {
    match event
    case SessionEvent(opening, tools) => Activated(s.(session := true), opening.(supplied := None), tools, expected)
    case ConfigChanged(opening, tools) =>
      if s.subscribed && s.session && opening.supplied.Some? then Activated(s, opening, tools, expected) else s
    case Shutdown(tools) =>
      Forget(s.(generation := s.generation + 1, session := false, subscribed := false, latest := Latest(None, None)),
             PiRestored(s.profile, tools))
    case OutsideEdit(next) => s.(profile := s.profile.(active := next))
    case _ => if Continues(s, event) then Continued(s, event, expected) else s
  }

  function Play(s: State, events: seq<Event>, expected: Option<string>): State
    decreases |events|
  {
    if events == [] then s else Happen(Play(s, events[..|events| - 1], expected), events[|events| - 1], expected)
  }

  // ---------------------------------------------------------------- what every run keeps

  predicate Current(s: State) { s.generation in s.frames }

  /**
   Suspended activations are stamped no later than now; a pending profile has its activation still
   running; a healthy one belongs to the model and key last recorded, which is the model selected
   last, and once the latest activation is through, to the configuration it read.
   */
  ghost predicate InStep(s: State) {
    && ReadinessMatches(s.profile)
    && (forall g :: g in s.frames ==> g <= s.generation)
    && (s.profile.readiness.PendingFor? ==> Current(s))
    && (s.profile.readiness.HealthyFor? ==>
        && s.lastKey == Some(s.profile.readiness.known) && s.lastModel == s.latest.model
        && (!Current(s) ==> s.latest.key == s.lastKey))
    && (Current(s) ==> s.frames[s.generation].model == s.latest.model)
    && (Current(s) && s.frames[s.generation].AwaitingCapabilities? ==> s.latest.key == Some(s.frames[s.generation].key))
  }

  lemma OpenedInStep(s: State, opening: Opening, tools: Registry)
    requires InStep(s)
    ensures var t := Opened(s, opening, tools);
      && ReadinessMatches(t.profile) && t.generation == s.generation + 1 && t.frames == s.frames
      && t.latest == Latest(opening.model, None)
      && (t.profile.readiness.HealthyFor? ==> t.lastKey == Some(t.profile.readiness.known) && t.lastModel == opening.model)
      && (t.profile.readiness.PendingFor? ==> opening.Active())
  {
  }

  lemma PreparedReadiness(p: Profile, model: Option<string>, config: Config, tools: Registry, expected: Option<string>)
    requires ReadinessMatches(p)
    ensures var q := Prepared(p, model, config, tools, expected);
      && ReadinessMatches(q)
      && (q.readiness.HealthyFor? ==> q.readiness == p.readiness)
      && (Proceeds(q) <==> q.readiness.HealthyFor? || q.readiness.PendingFor?)
  {
  }

  lemma ConfiguredInStep(s: State, model: Option<string>, config: Config, tools: Registry, expected: Option<string>)
    requires ReadinessMatches(s.profile) && model == s.latest.model
    requires forall g :: g in s.frames ==> g < s.generation
    requires s.profile.readiness.HealthyFor? ==> s.lastKey == Some(s.profile.readiness.known) && s.lastModel == model
    ensures InStep(Configured(s, model, config, tools, expected))
  {
    PreparedReadiness(s.profile, model, config, tools, expected);
  }

  lemma InstalledInStep(s: State, frame: Frame, shown: seq<Name>, loader: Option<Name>, tools: Registry, expected: Option<string>)
    requires frame.AwaitingCapabilities? && s.latest == Latest(frame.model, Some(frame.key))
    requires forall g :: g in s.frames ==> g < s.generation
    ensures InStep(Installed(s, frame, shown, loader, tools, expected))
  {
  }

  lemma FailedInStep(s: State, frame: Frame, tools: Registry)
    requires forall g :: g in s.frames ==> g < s.generation
    ensures InStep(Failed(s, frame, tools))
  {
  }

  lemma ContinuedInStep(s: State, event: Event, expected: Option<string>)
    requires InStep(s) && Continues(s, event)
    ensures InStep(Continued(s, event, expected))
  {
    var frame, t := s.frames[event.frame], s.(frames := s.frames - {event.frame});
    if event.frame == s.generation {
      match event
      case ConfigLoaded(_, config, tools) => ConfiguredInStep(t, frame.model, config, tools, expected);
      case CapabilitiesResolved(_, shown, loader, tools) => InstalledInStep(t, frame, shown, loader, tools, expected);
      case Threw(_, tools) => FailedInStep(t, frame, tools);
    }
  }

  lemma HappenInStep(s: State, event: Event, expected: Option<string>)
    requires InStep(s)
    ensures InStep(Happen(s, event, expected))
  {
    if event.SessionEvent? {
      OpenedInStep(s.(session := true), event.opening.(supplied := None), event.tools);
    } else if event.ConfigChanged? && s.subscribed && s.session && event.opening.supplied.Some? {
      OpenedInStep(s, event.opening, event.tools);
      ConfiguredInStep(Opened(s, event.opening, event.tools), event.opening.model, event.opening.supplied.value, event.tools, expected);
    } else if Continues(s, event) {
      ContinuedInStep(s, event, expected);
    }
  }

  lemma {:induction false} PlayInStep(s: State, events: seq<Event>, expected: Option<string>)
    requires InStep(s)
    ensures InStep(Play(s, events, expected))
    decreases |events|
  {
    if events != [] {
      PlayInStep(s, events[..|events| - 1], expected);
      HappenInStep(Play(s, events[..|events| - 1], expected), events[|events| - 1], expected);
    }
  }

  /**
   Once the latest activation is through, the profile is at rest: restored, unavailable, or healthy
   for exactly the model and the configuration that activation saw.
   */
  lemma SettledProfile(profile: Profile, events: seq<Event>, expected: Option<string>)
    requires profile.state.Pi? && profile.readiness.Inactive?
    ensures var s := Play(Initial(profile), events, expected);
      !Current(s) ==>
        && !s.profile.readiness.PendingFor?
        && (s.profile.readiness.HealthyFor? ==>
            s.latest == Latest(s.lastModel, Some(s.profile.readiness.known)))
  {
    PlayInStep(Initial(profile), events, expected);
  }

  // ---------------------------------------------------------------- stale continuations

  predicate Stale(s: State, event: Event) {
    IsContinuation(event) && (Continues(s, event) ==> event.frame != s.generation)
  }

  /** Equal but for suspended activations that are no longer the latest. */
  ghost predicate Alike(a: State, b: State) {
    && a.(frames := map[]) == b.(frames := map[])
    && (Current(a) <==> Current(b))
    && (Current(a) ==> a.frames[a.generation] == b.frames[b.generation])
    && (forall g :: g in a.frames || g in b.frames ==> g <= a.generation)
  }

  /** The run without its stale continuations. */
  function Effective(s: State, events: seq<Event>, expected: Option<string>): seq<Event>
    decreases |events|
  {
    if events == [] then [] else
    var front, last := events[..|events| - 1], events[|events| - 1];
    if Stale(Play(s, front, expected), last) then Effective(s, front, expected)
    else Effective(s, front, expected) + [last]
  }

  lemma OpenedAlike(s: State, frames: map<nat, Frame>, opening: Opening, tools: Registry)
    ensures Opened(s.(frames := frames), opening, tools) == Opened(s, opening, tools).(frames := frames)
    ensures Opened(s, opening, tools).frames == s.frames && Opened(s, opening, tools).generation == s.generation + 1
  {
  }

  lemma ActivatedAlike(a: State, b: State, opening: Opening, tools: Registry, expected: Option<string>)
    requires Alike(a, b)
    ensures Alike(Activated(a, opening, tools, expected), Activated(b, opening, tools, expected))
  {
    OpenedAlike(a, b.frames, opening, tools);
    assert b == a.(frames := b.frames);
    var x, y := Opened(a, opening, tools), Opened(b, opening, tools);
    if opening.supplied.Some? {
      ConfiguredAlike(x, y, opening.model, opening.supplied.value, tools, expected);
    }
  }

  /** Where a configured activation waits does not depend on which others are suspended. */
  lemma ConfiguredFrames(s: State, frames: map<nat, Frame>, model: Option<string>, config: Config, tools: Registry, expected: Option<string>)
    ensures var x, y := Configured(s, model, config, tools, expected), Configured(s.(frames := frames), model, config, tools, expected);
      && y.(frames := map[]) == x.(frames := map[]) && x.generation == s.generation
      && ((x.frames == s.frames && y.frames == frames)
          || (x.frames == s.frames[s.generation := AwaitingCapabilities(model, config.key)]
              && y.frames == frames[s.generation := AwaitingCapabilities(model, config.key)]))
  {
  }

  lemma ConfiguredAlike(a: State, b: State, model: Option<string>, config: Config, tools: Registry, expected: Option<string>)
    requires Alike(a, b) && !Current(a)
    ensures Alike(Configured(a, model, config, tools, expected), Configured(b, model, config, tools, expected))
  {
    ConfiguredFrames(a, b.frames, model, config, tools, expected);
    assert b == a.(frames := b.frames);
  }

  lemma ContinuedAlike(a: State, b: State, event: Event, expected: Option<string>)
    requires Alike(a, b) && !Stale(a, event) && IsContinuation(event)
    ensures Continues(a, event) && Continues(b, event)
    ensures Alike(Continued(a, event, expected), Continued(b, event, expected))
  {
    if event.ConfigLoaded? {
      var g := event.frame;
      var x, y := a.(frames := a.frames - {g}), b.(frames := b.frames - {g});
      ConfiguredAlike(x, y, a.frames[g].model, event.config, event.tools, expected);
    }
  }

  lemma HappenAlike(a: State, b: State, event: Event, expected: Option<string>)
    requires Alike(a, b) && !Stale(a, event)
    ensures Alike(Happen(a, event, expected), Happen(b, event, expected))
  {
    match event
    case SessionEvent(opening, tools) =>
      ActivatedAlike(a.(session := true), b.(session := true), opening.(supplied := None), tools, expected);
    case ConfigChanged(opening, tools) =>
      if a.subscribed && a.session && opening.supplied.Some? {
        ActivatedAlike(a, b, opening, tools, expected);
      }
    case ConfigLoaded(g, config, tools) => ContinuedAlike(a, b, event, expected);
    case CapabilitiesResolved(_, _, _, _) => ContinuedAlike(a, b, event, expected);
    case Threw(_, _) => ContinuedAlike(a, b, event, expected);
    case Shutdown(_) =>
    case OutsideEdit(_) =>
  }

  lemma StaleAlike(a: State, b: State, event: Event, expected: Option<string>)
    requires Alike(a, b) && Stale(a, event)
    ensures Alike(Happen(a, event, expected), b)
  {
  }

  /**
   In every interleaving, only the continuation of the latest activation does anything: leaving out
   all the others gives the same profile and the same bookkeeping.
   */
  lemma {:induction false} StaleContinuationsDoNothing(s: State, events: seq<Event>, expected: Option<string>)
    requires InStep(s)
    ensures Alike(Play(s, events, expected), Play(s, Effective(s, events, expected), expected))
    decreases |events|
  {
    if events != [] {
      var front, last := events[..|events| - 1], events[|events| - 1];
      StaleContinuationsDoNothing(s, front, expected);
      var a, kept := Play(s, front, expected), Effective(s, front, expected);
      if Stale(a, last) {
        StaleAlike(a, Play(s, kept, expected), last, expected);
      } else {
        HappenAlike(a, Play(s, kept, expected), last, expected);
        assert (kept + [last])[..|kept|] == kept;
      }
    }
  }

  predicate AfterHours(event: Event) { IsContinuation(event) || event.ConfigChanged? }

  ghost predicate ShutDown(s: State, profile: Profile) {
    && s.profile == profile && !s.subscribed && !s.session && s.lastKey.None?
    && forall g :: g in s.frames ==> g < s.generation
  }

  /** After a shutdown the restored profile stays, whatever was in flight and however settings change. */
  lemma {:induction false} ShutdownIsFinal(s: State, tools: Registry, events: seq<Event>, expected: Option<string>)
    requires InStep(s) && forall event :: event in events ==> AfterHours(event)
    ensures ShutDown(Play(Happen(s, Shutdown(tools), expected), events, expected), PiRestored(s.profile, tools))
    decreases |events|
  {
    if events != [] {
      ShutdownIsFinal(s, tools, events[..|events| - 1], expected);
      var closed := Play(Happen(s, Shutdown(tools), expected), events[..|events| - 1], expected);
      StaysShutDown(closed, PiRestored(s.profile, tools), events[|events| - 1], expected);
    }
  }

  lemma StaysShutDown(s: State, profile: Profile, event: Event, expected: Option<string>)
    requires ShutDown(s, profile) && AfterHours(event)
    ensures ShutDown(Happen(s, event, expected), profile)
  {
  }

  // ---------------------------------------------------------------- the closure's variables

  class CodexTools {
    const profile: CodexToolProfile
    var activationGeneration: nat
    var lastHealthyCapabilityKey: Option<Key>
    var lastHealthyModelIdentity: Option<string>
    var activeContext: bool
    var subscribed: bool
    var suspended: map<nat, Frame>
    ghost var latest: Latest

    ghost function View(): State
      reads this, profile, profile.host
    {
      State(profile.View(), activationGeneration, lastHealthyCapabilityKey, lastHealthyModelIdentity,
            activeContext, subscribed, suspended, latest)
    }

    constructor (profile: CodexToolProfile)
      ensures this.profile == profile && View() == Initial(profile.View())
    {
      this.profile := profile;
      activationGeneration := 0;
      lastHealthyCapabilityKey := None;
      lastHealthyModelIdentity := None;
      activeContext := false;
      subscribed := true;
      suspended := map[];
      latest := Latest(None, None);
    }

    method ForgetHealthy()
      modifies this`lastHealthyCapabilityKey, this`lastHealthyModelIdentity
      ensures View() == Forget(old(View()), old(profile.View()))
    {
      lastHealthyCapabilityKey := None;
      lastHealthyModelIdentity := None;
    }

    method SwitchOff(tools: Registry)
      modifies this`lastHealthyCapabilityKey, this`lastHealthyModelIdentity, profile, profile.host
      ensures View() == Forget(old(View()), PiRestored(old(profile.View()), tools))
    {
      profile.RestorePi(tools);
      ForgetHealthy();
    }

    method BeginActivation(opening: Opening, tools: Registry)
      modifies this, profile, profile.host
      ensures View() == Opened(old(View()), opening, tools)
    {
      activationGeneration := activationGeneration + 1;
      latest := Latest(opening.model, None);
      var suppliedKey := opening.SuppliedKey();
      if !opening.Active() {
        SwitchOff(tools);
      } else if !profile.readiness.HealthyFor? || lastHealthyCapabilityKey.None?
                || lastHealthyModelIdentity != opening.model
                || (suppliedKey.Some? && profile.readiness != HealthyFor(suppliedKey.value)) {
        profile.EnterPending(tools, suppliedKey);
      }
    }

    method Activate(opening: Opening, tools: Registry)
      modifies this, profile, profile.host
      ensures View() == Activated(old(View()), opening, tools, profile.expected)
    {
      BeginActivation(opening, tools);
      match opening.supplied {
        case None => suspended := suspended[activationGeneration := AwaitingConfig(opening.model, opening.Active())];
        case Some(config) => ApplyConfig(opening.model, config, tools);
      }
    }

    method Revalidate(tools: Registry) returns (proceed: bool)
      modifies this`lastHealthyCapabilityKey, this`lastHealthyModelIdentity, profile, profile.host
      ensures proceed == IsHealthy(profile.View())
      ensures var checked := Revalidated(old(profile.View()), tools, true, profile.expected);
        View() == if proceed then old(View()).(profile := checked) else Forget(old(View()), checked)
    {
      proceed := profile.RevalidateHealthyOwnership(tools, true);
      if !proceed {
        ForgetHealthy();
      }
    }

    method ApplyConfig(model: Option<string>, config: Config, tools: Registry)
      modifies this, profile, profile.host
      ensures View() == Configured(old(View()), model, config, tools, profile.expected)
    {
      latest := Latest(latest.model, Some(config.key));
      if model.None? || !config.active {
        SwitchOff(tools);
        return;
      }
      if profile.readiness == HealthyFor(config.key) {
        var proceed := Revalidate(tools);
        if !proceed {
          return;
        }
      } else {
        profile.EnterPending(tools, Some(config.key));
      }
      suspended := suspended[activationGeneration := AwaitingCapabilities(model, config.key)];
    }

    method OnConfigLoaded(generation: nat, config: Config, tools: Registry)
      requires Continues(View(), ConfigLoaded(generation, config, tools))
      modifies this, profile, profile.host
      ensures View() == Happen(old(View()), ConfigLoaded(generation, config, tools), profile.expected)
    {
      var frame := suspended[generation];
      suspended := suspended - {generation};
      if generation != activationGeneration {
        return;
      }
      ApplyConfig(frame.model, config, tools);
    }

    method OnCapabilitiesResolved(generation: nat, shown: seq<Name>, loader: Option<Name>, tools: Registry)
      requires Continues(View(), CapabilitiesResolved(generation, shown, loader, tools))
      modifies this, profile, profile.host
      ensures View() == Happen(old(View()), CapabilitiesResolved(generation, shown, loader, tools), profile.expected)
    {
      var frame := suspended[generation];
      suspended := suspended - {generation};
      if generation != activationGeneration {
        return;
      }
      var installed := profile.InstallHealthy(tools, frame.key, shown, loader, true);
      if !installed {
        ForgetHealthy();
        return;
      }
      lastHealthyCapabilityKey := Some(frame.key);
      lastHealthyModelIdentity := frame.model;
    }

    method OnThrow(generation: nat, tools: Registry)
      requires Continues(View(), Threw(generation, tools))
      modifies this, profile, profile.host
      ensures View() == Happen(old(View()), Threw(generation, tools), profile.expected)
    {
      var frame := suspended[generation];
      suspended := suspended - {generation};
      if generation == activationGeneration {
        Abandon(frame, tools);
      }
    }

    method Abandon(frame: Frame, tools: Registry)
      modifies this`lastHealthyCapabilityKey, this`lastHealthyModelIdentity, profile, profile.host
      ensures View() == Failed(old(View()), frame, tools)
    {
      if frame.FailsClosed() {
        profile.InstallUnavailable(tools, None, None, false);
        ForgetHealthy();
      } else {
        SwitchOff(tools);
      }
    }

    method OnSessionEvent(opening: Opening, tools: Registry)
      modifies this, profile, profile.host
      ensures View() == Happen(old(View()), SessionEvent(opening, tools), profile.expected)
    {
      activeContext := true;
      Activate(opening.(supplied := None), tools);
    }

    method OnConfigChanged(opening: Opening, tools: Registry)
      requires opening.supplied.Some?
      modifies this, profile, profile.host
      ensures View() == Happen(old(View()), ConfigChanged(opening, tools), profile.expected)
    {
      if subscribed && activeContext {
        Activate(opening, tools);
      }
    }

    method OnSessionShutdown(tools: Registry)
      modifies this, profile, profile.host
      ensures View() == Happen(old(View()), Shutdown(tools), profile.expected)
    {
      NextGeneration();
      SwitchOff(tools);
      Detach();
    }

    method NextGeneration()
      modifies this`activationGeneration
      ensures View() == old(View()).(generation := old(View()).generation + 1)
    {
      activationGeneration := activationGeneration + 1;
    }

    method Detach()
      modifies this`activeContext, this`latest, this`subscribed
      ensures View() == old(View()).(session := false, subscribed := false, latest := Latest(None, None))
    {
      activeContext := false;
      latest := Latest(None, None);
      subscribed := false;
    }
  }
}
