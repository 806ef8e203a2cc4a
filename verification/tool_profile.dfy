/**
 The reversible tool profile. Entering a Codex profile remembers which tools were active, hides
 Pi's core tools, and shows managed Codex tools only while their ownership is proven; restoring
 brings the remembered tools back. Other extensions own every additive tool and may change them at
 any moment between two operations.
 */
module ToolProfile {
  import opened Outcomes
  import opened NameLists

  datatype PiCore = Read | Bash | Edit | Write | Grep | Find | Ls

  datatype ManagedTool =
    | UpdatePlan | ExecCommand | WriteStdin | ShellCommand | ApplyPatch | ViewImage | ImageGen | WebRun

  /** A tool name: one of Pi's seven core names, one of the eight managed names, or any other. */
  datatype Name = Core(core: PiCore) | Managed(tool: ManagedTool) | Additive(text: string)

  /** A registered tool and the normalised path of the extension that registered it, when known. */
  datatype ToolInfo = ToolInfo(name: Name, path: Option<string>)

  /** What the host's registry answers; `None` when asking it throws. */
  type Registry = Option<seq<ToolInfo>>

  type Key = string

  datatype Phase = Pending | Healthy | Unavailable

  datatype ProfileState =
    | Pi
    | Codex(phase: Phase, baseline: seq<Name>, suppressed: seq<Name>, shown: seq<Name>, loader: Option<Name>)

  datatype Readiness =
    | Inactive
    | PendingFor(key: Option<Key>)
    | HealthyFor(known: Key)
    | UnavailableFor(key: Option<Key>)

  datatype Notice = Notice(generation: nat, tool: Name)

  datatype Profile = Profile(
    active: seq<Name>, state: ProfileState, readiness: Readiness,
    generation: nat, notified: int, notices: seq<Notice>)

  function Fresh(active: seq<Name>): Profile {
    Profile(active, Pi, Inactive, 0, -1, [])
  }

  // ---------------------------------------------------------------- kinds of names

  function Additives(names: set<Name>): set<Name> {
    set n | n in names && n.Additive?
  }

  function Cores(names: set<Name>): set<Name> {
    set n | n in names && n.Core?
  }

  function ManagedIn(names: set<Name>): set<Name> {
    set n | n in names && n.Managed?
  }

  function Unmanaged(names: set<Name>): set<Name> {
    set n | n in names && !n.Managed?
  }

  function Names(tools: seq<ToolInfo>): set<Name> {
    set tool | tool in tools :: tool.name
  }

  // ---------------------------------------------------------------- the two list functions

  /** The Codex view: available additive tools in their order, then the available managed ones. */
  function Reconciled(current: seq<Name>, available: set<Name>, shown: seq<Name>): seq<Name> {
    Keep(Dedup(current), Additives(available)) + Keep(Dedup(shown), ManagedIn(available))
  }

  /** The Pi view without a remembered order: everything available that is not managed. */
  function Unprofiled(current: seq<Name>, available: set<Name>): seq<Name> {
    Keep(Dedup(current), Unmanaged(available))
  }

  /**
   The Pi view restored from a baseline: its own captured core tools and still active additive
   tools in baseline order, then the additive tools that have appeared since.
   */
  function Restored(current: seq<Name>, available: set<Name>, baseline: seq<Name>, captured: seq<Name>): seq<Name> {
    var additives := Keep(Dedup(current), Additives(available));
    Keep(Dedup(baseline), available * (Cores(Elements(captured)) + Elements(additives)))
    + Keep(additives, Elements(additives) - Elements(baseline))
  }

  method OrderedUnique(names: seq<Name>) returns (result: seq<Name>)
    ensures result == Dedup(names)
  {
    result := [];
    var seen: set<Name> := {};
    for i := 0 to |names|
      invariant result == Dedup(names[..i]) && seen == Elements(result)
    {
      assert names[..i + 1][..i] == names[..i];
      if names[i] !in seen {
        seen := seen + {names[i]};
        result := result + [names[i]];
      }
    }
    assert names[..|names|] == names;
  }

  method Reconcile(current: seq<Name>, available: set<Name>, shown: seq<Name>) returns (result: seq<Name>)
    ensures result == Reconciled(current, available, shown)
    ensures Distinct(result)
  {
    result := OrderedUnique(Keep(current, Additives(available)));
    DedupKeep(current, Additives(available));
    ghost var additives := result;
    KeepMembers(Dedup(current), Additives(available));
    var names := OrderedUnique(shown);
    DedupDistinct(shown);
    for i := 0 to |names|
      invariant result == additives + Keep(names[..i], ManagedIn(available))
    {
      assert names[..i + 1][..i] == names[..i];
      KeepMembers(names[..i], ManagedIn(available));
      if names[i] in available && names[i].Managed? && names[i] !in result {
        result := result + [names[i]];
      }
    }
    assert names[..|names|] == names;
    ReconciledDistinct(current, available, shown);
  }

  lemma ReconciledDistinct(current: seq<Name>, available: set<Name>, shown: seq<Name>)
    ensures Distinct(Reconciled(current, available, shown))
  {
    DedupDistinct(current);
    DedupDistinct(shown);
    KeepDistinct(Dedup(current), Additives(available));
    KeepDistinct(Dedup(shown), ManagedIn(available));
    KeepMembers(Dedup(current), Additives(available));
    KeepMembers(Dedup(shown), ManagedIn(available));
    DisjointConcatDistinct(Keep(Dedup(current), Additives(available)), Keep(Dedup(shown), ManagedIn(available)));
  }

  method RestoreNames(current: seq<Name>, available: set<Name>, baseline: seq<Name>, captured: seq<Name>)
    returns (restored: seq<Name>)
    ensures restored == Restored(current, available, baseline, captured)
    ensures Distinct(restored)
  {
    var unique := OrderedUnique(current);
    DedupDistinct(current);
    var additives := Keep(unique, Additives(available));
    KeepMembers(unique, Additives(available));
    KeepDistinct(unique, Additives(available));
    var order := OrderedUnique(baseline);
    DedupDistinct(baseline);
    DedupMembers(baseline);
    ghost var wanted := available * (Cores(Elements(captured)) + Elements(additives));
    restored := [];
    for i := 0 to |order|
      invariant restored == Keep(order[..i], wanted)
    {
      assert order[..i + 1][..i] == order[..i];
      KeepMembers(order[..i], wanted);
      var name := order[i];
      if !name.Managed? && (if name.Core? then name in captured else name in additives) {
        if name in available && name !in restored {
          restored := restored + [name];
        }
      }
    }
    assert order[..|order|] == order;
    KeepMembers(order, wanted);
    ghost var fixed := restored;
    ghost var added := Elements(additives) - Elements(baseline);
    for i := 0 to |additives|
      invariant restored == fixed + Keep(additives[..i], added)
    {
      assert additives[..i + 1][..i] == additives[..i];
      KeepMembers(additives[..i], added);
      if additives[i] in available && additives[i] !in restored {
        restored := restored + [additives[i]];
      }
    }
    assert additives[..|additives|] == additives;
    RestoredDistinct(current, available, baseline, captured);
  }

  lemma RestoredDistinct(current: seq<Name>, available: set<Name>, baseline: seq<Name>, captured: seq<Name>)
    ensures Distinct(Restored(current, available, baseline, captured))
  {
    var additives := Keep(Dedup(current), Additives(available));
    var wanted := available * (Cores(Elements(captured)) + Elements(additives));
    var added := Elements(additives) - Elements(baseline);
    DedupDistinct(current);
    KeepDistinct(Dedup(current), Additives(available));
    DedupDistinct(baseline);
    DedupMembers(baseline);
    KeepDistinct(Dedup(baseline), wanted);
    KeepMembers(Dedup(baseline), wanted);
    KeepDistinct(additives, added);
    KeepMembers(additives, added);
    DisjointConcatDistinct(Keep(Dedup(baseline), wanted), Keep(additives, added));
  }

  // ---------------------------------------------------------------- ownership of managed tools

  /** The last registration of a name is the one that counts. */
  function Registered(tools: seq<ToolInfo>, name: Name): Option<ToolInfo> {
    if tools == [] then None else
    if tools[|tools| - 1].name == name then Some(tools[|tools| - 1]) else
    Registered(tools[..|tools| - 1], name)
  }

  predicate Owns(tools: seq<ToolInfo>, name: Name, expected: Option<string>) {
    && name.Managed?
    && Registered(tools, name).Some?
    && (expected.Some? ==> Registered(tools, name).value.path == expected)
  }

  function Unowned(tools: seq<ToolInfo>, shown: seq<Name>, expected: Option<string>): set<Name> {
    set n | n in shown && !Owns(tools, n, expected)
  }

  datatype Ownership = Owned | NotOwned(conflict: Option<Name>)

  function Validated(tools: Registry, shown: seq<Name>, expected: Option<string>): Ownership {
    if tools.None? then NotOwned(None) else
    var bad := Unowned(tools.value, shown, expected);
    if bad == {} then Owned else NotOwned(FirstOf(Dedup(shown), bad))
  }

  function FirstOf(names: seq<Name>, bad: set<Name>): Option<Name> {
    if names == [] then None else if names[0] in bad then Some(names[0]) else FirstOf(names[1..], bad)
  }

  lemma {:induction false} FirstOfAt(names: seq<Name>, bad: set<Name>, k: nat)
    requires k < |names| && names[k] in bad
    requires forall j :: 0 <= j < k ==> names[j] !in bad
    ensures FirstOf(names, bad) == Some(names[k])
  {
    if k > 0 {
      FirstOfAt(names[1..], bad, k - 1);
    }
  }

  method ValidateOwnership(tools: Registry, shown: seq<Name>, expected: Option<string>) returns (result: Ownership)
    ensures result == Validated(tools, shown, expected)
    ensures result.Owned? <==> tools.Some? && forall n :: n in shown ==> Owns(tools.value, n, expected)
  {
    if tools.None? {
      return NotOwned(None);
    }
    ghost var bad := Unowned(tools.value, shown, expected);
    var names := OrderedUnique(shown);
    DedupMembers(shown);
    for i := 0 to |names|
      invariant forall j :: 0 <= j < i ==> names[j] !in bad
    {
      var name := names[i];
      assert name in names;
      var tool := Registered(tools.value, name);
      if !name.Managed? || tool.None? || (expected.Some? && tool.value.path != expected) {
        FirstOfAt(names, bad, i);
        return NotOwned(Some(name));
      }
    }
    assert bad == {} by {
      assert forall n :: n in bad ==> n in names;
    }
    return Owned;
  }

  // ---------------------------------------------------------------- the operations, on values

  /** Without a registry, whatever is active or remembered counts as available. */
  function Available(p: Profile, tools: Registry): set<Name> {
    match tools
    case Some(list) => Names(list)
    case None =>
      if p.state.Pi? then Elements(p.active)
      else Elements(p.active) + Elements(p.state.baseline) + Elements(p.state.suppressed) + Elements(p.state.shown)
  }

  /** The host is only written to when its deduplicated list differs. */
  function Activate(active: seq<Name>, next: seq<Name>): seq<Name> {
    if Dedup(active) == Dedup(next) then active else Dedup(next)
  }

  function InCodex(p: Profile, tools: Registry): (q: Profile)
    ensures q.state.Codex?
  {
    if p.state.Codex? then p else
    var current := Dedup(p.active);
    p.(state := Codex(Pending, current, Keep(current, Cores(Available(p, tools))), [], None))
  }

  function Suppressed(p: Profile, tools: Registry, phase: Phase): Profile
    requires p.state.Codex?
  {
    p.(active := Activate(p.active, Reconciled(p.active, Available(p, tools), [])),
       state := p.state.(phase := phase, shown := [], loader := None))
  }

  function PendingEntered(p: Profile, tools: Registry, key: Option<Key>): Profile {
    var entered := InCodex(p, tools).(generation := p.generation + 1, notified := -1);
    Suppressed(entered, tools, Pending).(readiness := PendingFor(key))
  }

  function UnavailableInstalled(p: Profile, tools: Registry, key: Option<Key>, conflict: Option<Name>, notify: bool): Profile {
    var q := Suppressed(InCodex(p, tools), tools, Unavailable).(readiness := UnavailableFor(key));
    if conflict.Some? && notify && q.notified != q.generation
    then q.(notified := q.generation, notices := q.notices + [Notice(q.generation, conflict.value)])
    else q
  }

  function Shown(p: Profile, tools: Registry, shown: seq<Name>): seq<Name> {
    Activate(p.active, Reconciled(p.active, Available(p, tools), shown))
  }

  function HealthyInstalled(
    p: Profile, tools: Registry, key: Key, shown: seq<Name>, loader: Option<Name>, notify: bool, expected: Option<string>): Profile
  {
    var entered := InCodex(p, tools);
    match Validated(tools, shown, expected)
    case NotOwned(conflict) => UnavailableInstalled(entered, tools, Some(key), conflict, notify)
    case Owned =>
      entered.(active := Shown(entered, tools, shown), readiness := HealthyFor(key),
               state := entered.state.(phase := Healthy, shown := OrderedManaged(shown), loader := loader))
  }

  function OrderedManaged(names: seq<Name>): seq<Name> {
    Keep(Dedup(names), ManagedIn(Elements(names)))
  }

  predicate IsHealthy(p: Profile) { p.state.Codex? && p.state.phase.Healthy? }

  function Revalidated(p: Profile, tools: Registry, notify: bool, expected: Option<string>): Profile {
    if !IsHealthy(p) then p else
    match Validated(tools, p.state.shown, expected)
    case NotOwned(conflict) =>
      var key := if p.readiness.HealthyFor? then Some(p.readiness.known) else None;
      UnavailableInstalled(p, tools, key, conflict, notify)
    case Owned => p.(active := Shown(p, tools, p.state.shown))
  }

  function PiRestored(p: Profile, tools: Registry): Profile {
    var available := Available(p, tools);
    var names := if p.state.Codex? then Restored(p.active, available, p.state.baseline, p.state.suppressed)
                 else Unprofiled(p.active, available);
    p.(active := Activate(p.active, names), state := Pi, readiness := Inactive)
  }

  // ---------------------------------------------------------------- runs

  datatype Step =
    | Pend(tools: Registry, key: Option<Key>)
    | Install(tools: Registry, known: Key, shown: seq<Name>, loader: Option<Name>, notify: bool)
    | Fail(tools: Registry, key: Option<Key>, conflict: Option<Name>, notify: bool)
    | Revalidate(tools: Registry, notify: bool)
    | Restore(tools: Registry)
    | Outside(next: seq<Name>)

  function Apply(p: Profile, step: Step, expected: Option<string>): Profile {
    match step
    case Pend(tools, key) => PendingEntered(p, tools, key)
    case Install(tools, key, shown, loader, notify) => HealthyInstalled(p, tools, key, shown, loader, notify, expected)
    case Fail(tools, key, conflict, notify) => UnavailableInstalled(p, tools, key, conflict, notify)
    case Revalidate(tools, notify) => Revalidated(p, tools, notify, expected)
    case Restore(tools) => PiRestored(p, tools)
    case Outside(next) => p.(active := next)
  }

  function Run(p: Profile, steps: seq<Step>, expected: Option<string>): Profile
    decreases |steps|
  {
    if steps == [] then p else Apply(Run(p, steps[..|steps| - 1], expected), steps[|steps| - 1], expected)
  }

  // ---------------------------------------------------------------- what activation shows

  function OnlyAdditive(names: seq<Name>): seq<Name> {
    Keep(names, Additives(Elements(names)))
  }

  /** The additive tools currently active, without repetitions and in order. */
  function Live(p: Profile): seq<Name> {
    OnlyAdditive(Dedup(p.active))
  }

  lemma ActivateShows(active: seq<Name>, next: seq<Name>)
    requires Distinct(next)
    ensures Dedup(Activate(active, next)) == next
  {
    DedupDistinct(next);
    DedupOfDistinct(next);
  }

  lemma OnlyAdditiveKeep(names: seq<Name>, available: set<Name>)
    ensures Keep(names, Additives(available)) == Keep(OnlyAdditive(names), available)
  {
    var all := Additives(Elements(names));
    KeepKeep(names, all, available);
    KeepAgrees(names, all * available, Additives(available));
  }

  /** After a Codex view is shown: its additive part is what was live and available, then come the managed tools. */
  lemma ReconciledParts(current: seq<Name>, available: set<Name>, shown: seq<Name>)
    ensures OnlyAdditive(Reconciled(current, available, shown)) == Keep(OnlyAdditive(Dedup(current)), available)
    ensures forall n :: n in Reconciled(current, available, shown) <==>
      (n.Additive? && n in current && n in available) || (n.Managed? && n in shown && n in available)
  {
    var additives, managed := Keep(Dedup(current), Additives(available)), Keep(Dedup(shown), ManagedIn(available));
    KeepMembers(Dedup(current), Additives(available));
    KeepMembers(Dedup(shown), ManagedIn(available));
    DedupMembers(current);
    DedupMembers(shown);
    var all := Additives(Elements(additives + managed));
    KeepAppend(additives, managed, all);
    KeepAll(additives, all);
    KeepNone(managed, all);
    OnlyAdditiveKeep(Dedup(current), available);
  }

  /** Showing a Codex view, whatever the host held before. */
  lemma ShowsCodexView(active: seq<Name>, available: set<Name>, shown: seq<Name>, next: seq<Name>)
    requires next == Activate(active, Reconciled(active, available, shown))
    ensures Dedup(next) == Reconciled(active, available, shown)
    ensures OnlyAdditive(Dedup(next)) == Keep(OnlyAdditive(Dedup(active)), available)
    ensures forall n :: n in next <==>
      (n.Additive? && n in active && n in available) || (n.Managed? && n in shown && n in available)
  {
    ReconciledDistinct(active, available, shown);
    ActivateShows(active, Reconciled(active, available, shown));
    ReconciledParts(active, available, shown);
    DedupMembers(next);
  }

  // ---------------------------------------------------------------- what every run keeps

  ghost predicate ReadinessMatches(p: Profile) {
    match p.state
    case Pi => p.readiness.Inactive?
    case Codex(phase, _, _, _, _) =>
      match phase
      case Pending => p.readiness.PendingFor?
      case Healthy => p.readiness.HealthyFor?
      case Unavailable => p.readiness.UnavailableFor?
  }

  /** In a Codex phase no core tool is active, and the active managed tools are exactly the installed ones. */
  ghost predicate ShowsCodex(p: Profile)
    requires p.state.Codex?
  {
    forall n | n in p.active || n in p.state.shown ::
      !n.Core? && (n.Managed? ==> n in p.active && n in p.state.shown)
  }

  ghost predicate NothingInstalled(p: Profile) {
    p.state.Codex? && !p.state.phase.Healthy? ==> p.state.shown == [] && p.state.loader.None?
  }

  /** At most one conflict notice per generation. */
  ghost predicate NoticesOnce(p: Profile) {
    && (forall i, j :: 0 <= i < j < |p.notices| ==> p.notices[i].generation < p.notices[j].generation)
    && (forall i :: 0 <= i < |p.notices| ==> p.notices[i].generation <= p.generation)
    && (p.notified != p.generation ==> forall i :: 0 <= i < |p.notices| ==> p.notices[i].generation < p.generation)
  }

  ghost predicate Consistent(p: Profile) {
    ReadinessMatches(p) && (p.state.Codex? ==> ShowsCodex(p)) && NothingInstalled(p) && NoticesOnce(p)
  }

  /** Outside a restored profile, other extensions change additive tools only. */
  ghost predicate Allowed(p: Profile, step: Step) {
    step.Outside? && p.state.Codex? ==> forall n: Name :: !n.Additive? ==> (n in step.next <==> n in p.active)
  }

  ghost predicate AllAllowed(p: Profile, steps: seq<Step>, expected: Option<string>)
    decreases |steps|
  {
    steps == [] ||
    (AllAllowed(p, steps[..|steps| - 1], expected)
     && Allowed(Run(p, steps[..|steps| - 1], expected), steps[|steps| - 1]))
  }

  lemma SuppressedShowsCodex(p: Profile, tools: Registry, phase: Phase)
    requires p.state.Codex?
    ensures ShowsCodex(Suppressed(p, tools, phase))
  {
    ShowsCodexView(p.active, Available(p, tools), [], Suppressed(p, tools, phase).active);
  }

  lemma UnavailableConsistent(p: Profile, tools: Registry, key: Option<Key>, conflict: Option<Name>, notify: bool)
    requires NoticesOnce(p)
    ensures Consistent(UnavailableInstalled(p, tools, key, conflict, notify))
  {
    var entered := InCodex(p, tools);
    SuppressedShowsCodex(entered, tools, Unavailable);
    var hidden, q := Suppressed(entered, tools, Unavailable), UnavailableInstalled(p, tools, key, conflict, notify);
    assert q.active == hidden.active && q.state == hidden.state;
    assert NoticesOnce(q);
  }

  lemma PendingConsistent(p: Profile, tools: Registry, key: Option<Key>)
    requires NoticesOnce(p)
    ensures Consistent(PendingEntered(p, tools, key))
  {
    SuppressedShowsCodex(InCodex(p, tools).(generation := p.generation + 1, notified := -1), tools, Pending);
  }

  /** Owned tools are all managed and available, so every one of them is shown. */
  lemma OwnedAreAvailable(tools: Registry, shown: seq<Name>, expected: Option<string>)
    requires Validated(tools, shown, expected).Owned?
    ensures tools.Some? && forall n :: n in shown ==> n.Managed? && n in Names(tools.value)
  {
    forall n | n in shown
      ensures n.Managed? && n in Names(tools.value)
    {
      assert n !in Unowned(tools.value, shown, expected);
      RegisteredIsNamed(tools.value, n);
    }
  }

  lemma {:induction false} RegisteredIsNamed(tools: seq<ToolInfo>, name: Name)
    requires Registered(tools, name).Some?
    ensures name in Names(tools)
  {
    if tools[|tools| - 1].name != name {
      RegisteredIsNamed(tools[..|tools| - 1], name);
      assert tools == tools[..|tools| - 1] + [tools[|tools| - 1]];
    } else {
      assert tools[|tools| - 1] in tools;
    }
  }

  lemma InstallConsistent(p: Profile, tools: Registry, key: Key, shown: seq<Name>, loader: Option<Name>, notify: bool,
                          expected: Option<string>)
    requires NoticesOnce(p)
    ensures Consistent(HealthyInstalled(p, tools, key, shown, loader, notify, expected))
  {
    var entered := InCodex(p, tools);
    match Validated(tools, shown, expected)
    case NotOwned(conflict) => UnavailableConsistent(entered, tools, Some(key), conflict, notify);
    case Owned =>
      OwnedAreAvailable(tools, shown, expected);
      ShowsCodexView(entered.active, Available(entered, tools), shown, Shown(entered, tools, shown));
      DedupMembers(shown);
      KeepMembers(Dedup(shown), ManagedIn(Elements(shown)));
  }

  /** A successful installation shows the additive tools, then exactly the requested managed tools in order. */
  lemma InstallShowsAll(p: Profile, tools: Registry, key: Key, shown: seq<Name>, loader: Option<Name>, notify: bool,
                        expected: Option<string>)
    requires Validated(tools, shown, expected).Owned?
    ensures var q := HealthyInstalled(p, tools, key, shown, loader, notify, expected);
      Dedup(q.active) == Keep(Live(p), Names(tools.value)) + Dedup(shown)
  {
    var entered := InCodex(p, tools);
    OwnedAreAvailable(tools, shown, expected);
    ShowsCodexView(entered.active, Available(entered, tools), shown, Shown(entered, tools, shown));
    OnlyAdditiveKeep(Dedup(p.active), Names(tools.value));
    DedupMembers(shown);
    KeepAll(Dedup(shown), ManagedIn(Names(tools.value)));
  }

  lemma RevalidateConsistent(p: Profile, tools: Registry, notify: bool, expected: Option<string>)
    requires Consistent(p)
    ensures Consistent(Revalidated(p, tools, notify, expected))
  {
    if IsHealthy(p) {
      match Validated(tools, p.state.shown, expected)
      case NotOwned(conflict) => UnavailableConsistent(p, tools, Some(p.readiness.known), conflict, notify);
      case Owned =>
        OwnedAreAvailable(tools, p.state.shown, expected);
        ShowsCodexView(p.active, Available(p, tools), p.state.shown, Shown(p, tools, p.state.shown));
    }
  }

  lemma StepKeepsConsistent(p: Profile, step: Step, expected: Option<string>)
    requires Consistent(p) && Allowed(p, step)
    ensures Consistent(Apply(p, step, expected))
  {
    match step
    case Pend(tools, key) => PendingConsistent(p, tools, key);
    case Install(tools, key, shown, loader, notify) => InstallConsistent(p, tools, key, shown, loader, notify, expected);
    case Fail(tools, key, conflict, notify) => UnavailableConsistent(p, tools, key, conflict, notify);
    case Revalidate(tools, notify) => RevalidateConsistent(p, tools, notify, expected);
    case Restore(_) =>
    case Outside(_) =>
  }

  lemma {:induction false} RunKeepsConsistent(p: Profile, steps: seq<Step>, expected: Option<string>)
    requires Consistent(p) && AllAllowed(p, steps, expected)
    ensures Consistent(Run(p, steps, expected))
    decreases |steps|
  {
    if steps != [] {
      RunKeepsConsistent(p, steps[..|steps| - 1], expected);
      StepKeepsConsistent(Run(p, steps[..|steps| - 1], expected), steps[|steps| - 1], expected);
    }
  }

  // ---------------------------------------------------------------- restoring, with outside edits

  /** What a registry leaves of a list of live tools; without a registry nothing is dropped. */
  function Seen(live: seq<Name>, tools: Registry): seq<Name> {
    match tools
    case Some(list) => Keep(live, Names(list))
    case None => live
  }

  predicate Visible(tools: Registry, name: Name) {
    tools.Some? ==> name in Names(tools.value)
  }

  predicate Enters(step: Step) { step.Pend? || step.Install? || step.Fail? }

  /** The additive tools that remain: the last outside edit, less what later operations found unregistered. */
  function Survivors(p: Profile, steps: seq<Step>, expected: Option<string>): seq<Name>
    decreases |steps|
  {
    if steps == [] then Live(p) else
    var front, last := steps[..|steps| - 1], steps[|steps| - 1];
    Surviving(Run(p, front, expected), last, Survivors(p, front, expected))
  }

  lemma ShownLive(p: Profile, tools: Registry, shown: seq<Name>)
    requires p.state.Codex?
    ensures OnlyAdditive(Dedup(Shown(p, tools, shown))) == Seen(Live(p), tools)
  {
    ShowsCodexView(p.active, Available(p, tools), shown, Shown(p, tools, shown));
    if tools.None? {
      DedupMembers(p.active);
      KeepMembers(Dedup(p.active), Additives(Elements(Dedup(p.active))));
      KeepAll(Live(p), Available(p, tools));
    }
  }

  /** What one operation makes of the live additive tools. */
  function Surviving(p: Profile, step: Step, live: seq<Name>): seq<Name> {
    match step
    case Outside(next) => OnlyAdditive(Dedup(next))
    case Revalidate(tools, _) => if IsHealthy(p) then Seen(live, tools) else live
    case Restore(_) => live
    case _ => Seen(live, step.tools)
  }

  /** A Codex profile remembers the list it was entered from, and the core tools it hid. */
  ghost predicate Remembers(q: Profile, start: seq<Name>, captured: seq<Name>) {
    q.state.Codex? && q.state.baseline == Dedup(start) && q.state.suppressed == captured
  }

  function Captured(p: Profile, tools: Registry): seq<Name> {
    Keep(Dedup(p.active), Cores(Available(p, tools)))
  }

  lemma EntryRemembers(p: Profile, enter: Step, expected: Option<string>)
    requires p.state.Pi? && Enters(enter)
    ensures Remembers(Apply(p, enter, expected), p.active, Captured(p, enter.tools))
  {
  }

  lemma StepRemembers(p: Profile, step: Step, start: seq<Name>, captured: seq<Name>, expected: Option<string>)
    requires !step.Restore? && Remembers(p, start, captured)
    ensures Remembers(Apply(p, step, expected), start, captured)
  {
  }

  lemma EntryTracksLive(p: Profile, step: Step, expected: Option<string>)
    requires Enters(step)
    ensures Live(Apply(p, step, expected)) == Seen(Live(p), step.tools)
  {
    var entered, q := InCodex(p, step.tools), Apply(p, step, expected);
    match step
    case Pend(tools, _) => ShownLive(entered.(generation := p.generation + 1, notified := -1), tools, []);
    case Fail(tools, _, _, _) => ShownLive(entered, tools, []);
    case Install(tools, _, shown, _, _) =>
      if Validated(tools, shown, expected).Owned? {
        ShownLive(entered, tools, shown);
      } else {
        ShownLive(entered, tools, []);
      }
  }

  lemma RevalidateTracksLive(p: Profile, tools: Registry, notify: bool, expected: Option<string>)
    requires IsHealthy(p)
    ensures Live(Revalidated(p, tools, notify, expected)) == Seen(Live(p), tools)
  {
    if Validated(tools, p.state.shown, expected).Owned? {
      ShownLive(p, tools, p.state.shown);
    } else {
      ShownLive(p, tools, []);
    }
  }

  lemma StepTracksLive(p: Profile, step: Step, expected: Option<string>)
    requires !step.Restore? && (Enters(step) || p.state.Codex?)
    ensures Live(Apply(p, step, expected)) == Surviving(p, step, Live(p))
  {
    if Enters(step) {
      EntryTracksLive(p, step, expected);
    } else if step.Revalidate? && IsHealthy(p) {
      RevalidateTracksLive(p, step.tools, step.notify, expected);
    }
  }

  lemma {:induction false} RunTracksLive(p: Profile, start: seq<Name>, captured: seq<Name>, steps: seq<Step>, expected: Option<string>)
    requires Remembers(p, start, captured) && forall step :: step in steps ==> !step.Restore?
    ensures Remembers(Run(p, steps, expected), start, captured)
    ensures Live(Run(p, steps, expected)) == Survivors(p, steps, expected)
    decreases |steps|
  {
    if steps != [] {
      var front, last := steps[..|steps| - 1], steps[|steps| - 1];
      RunTracksLive(p, start, captured, front, expected);
      StepRemembers(Run(p, front, expected), last, start, captured, expected);
      StepTracksLive(Run(p, front, expected), last, expected);
    }
  }

  /** The core tools that come back: those active on entry, registered then and registered now. */
  function RestoredCores(start: seq<Name>, entry: Registry, exit: Registry): set<Name> {
    set n | n in start && n.Core? && Visible(entry, n) && Visible(exit, n)
  }

  /**
   Whatever happens between entering and restoring: the captured core tools and the surviving
   additive tools come back in their original order, and additive tools that appeared since follow.
   */
  lemma RestoreReflectsEdits(p: Profile, enter: Step, steps: seq<Step>, tools: Registry, expected: Option<string>)
    requires p.state.Pi? && Enters(enter) && forall step :: step in steps ==> !step.Restore?
    ensures var q := Apply(p, enter, expected);
      var r, additives := PiRestored(Run(q, steps, expected), tools), Seen(Survivors(q, steps, expected), tools);
      && Live(q) == Seen(Live(p), enter.tools)
      && r.state.Pi? && r.readiness.Inactive?
      && Dedup(r.active)
         == Keep(Dedup(p.active), RestoredCores(p.active, enter.tools, tools) + Elements(additives))
            + Keep(additives, Elements(additives) - Elements(p.active))
  {
    var q := Apply(p, enter, expected);
    EntryTracksLive(p, enter, expected);
    EntryRemembers(p, enter, expected);
    RunTracksLive(q, p.active, Captured(p, enter.tools), steps, expected);
    RestoreFromCodex(Run(q, steps, expected), p, enter.tools, tools);
  }

  lemma RestoreFromCodex(q: Profile, p: Profile, entry: Registry, tools: Registry)
    requires p.state.Pi? && Remembers(q, p.active, Captured(p, entry))
    ensures var additives := Seen(Live(q), tools);
      Dedup(PiRestored(q, tools).active)
      == Keep(Dedup(p.active), RestoredCores(p.active, entry, tools) + Elements(additives))
         + Keep(additives, Elements(additives) - Elements(p.active))
  {
    var available, additives := Available(q, tools), Seen(Live(q), tools);
    DedupMembers(p.active);
    DedupMembers(q.active);
    KeepMembers(Dedup(p.active), Cores(Available(p, entry)));
    KeepMembers(Dedup(q.active), Additives(Elements(Dedup(q.active))));
    OnlyAdditiveKeep(Dedup(q.active), available);
    KeepMembers(Live(q), available);
    if tools.None? {
      KeepAll(Live(q), available);
    }
    assert additives == Keep(Dedup(q.active), Additives(available));
    DedupDistinct(p.active);
    DedupOfDistinct(Dedup(p.active));
    var wanted := available * (Cores(Elements(q.state.suppressed)) + Elements(additives));
    KeepAgrees(Dedup(p.active), wanted, RestoredCores(p.active, entry, tools) + Elements(additives));
    assert Elements(q.state.baseline) == Elements(p.active);
    RestoredDistinct(q.active, available, q.state.baseline, q.state.suppressed);
    ActivateShows(q.active, Restored(q.active, available, q.state.baseline, q.state.suppressed));
  }

  // ---------------------------------------------------------------- restoring, without outside edits

  /** The names a run without edits can ever bring back. */
  function Reach(start: seq<Name>, tools: Registry): set<Name> {
    match tools
    case Some(list) => Names(list)
    case None => Elements(start)
  }

  ghost predicate Within(names: seq<Name>, tools: Registry, reach: set<Name>) {
    if tools.None? then forall n :: n in names && !n.Managed? ==> n in reach else reach == Names(tools.value)
  }

  ghost predicate CapturesCores(state: ProfileState, reach: set<Name>)
    requires state.Codex?
  {
    forall n: Name :: n.Core? && n in state.baseline ==> (n in state.suppressed <==> n in reach)
  }

  /** From here a restore ends with the target list. */
  ghost predicate OnCourse(p: Profile, tools: Registry, reach: set<Name>, target: seq<Name>) {
    && Within(p.active, tools, reach)
    && match p.state
       case Pi => Keep(Dedup(p.active), Unmanaged(reach)) == target
       case Codex(_, baseline, _, _, _) =>
         && Distinct(baseline) && Within(baseline, tools, reach)
         && Keep(baseline, Unmanaged(reach)) == target
         && CapturesCores(p.state, reach)
         && Keep(Live(p), reach) == Keep(baseline, Additives(reach))
  }

  lemma EnterOnCourse(p: Profile, tools: Registry, reach: set<Name>, target: seq<Name>)
    requires OnCourse(p, tools, reach, target)
    ensures OnCourse(InCodex(p, tools), tools, reach, target)
  {
    if p.state.Pi? {
      DedupMembers(p.active);
      DedupDistinct(p.active);
      KeepMembers(Dedup(p.active), Cores(Available(p, tools)));
      OnlyAdditiveKeep(Dedup(p.active), reach);
    }
  }

  lemma ShownOnCourse(p: Profile, q: Profile, tools: Registry, shown: seq<Name>, reach: set<Name>, target: seq<Name>)
    requires OnCourse(p, tools, reach, target) && p.state.Codex? && q.state.Codex?
    requires q.active == Shown(p, tools, shown)
    requires q.state.baseline == p.state.baseline && q.state.suppressed == p.state.suppressed
    ensures OnCourse(q, tools, reach, target)
  {
    ShowsCodexView(p.active, Available(p, tools), shown, q.active);
    ShownLive(p, tools, shown);
    if tools.Some? {
      KeepKeep(Live(p), reach, reach);
      assert reach * reach == reach;
    }
  }

  lemma RestoreOnCourse(p: Profile, tools: Registry, reach: set<Name>, target: seq<Name>)
    requires OnCourse(p, tools, reach, target)
    ensures OnCourse(PiRestored(p, tools), tools, reach, target)
    ensures Dedup(PiRestored(p, tools).active) == target
  {
    var available := Available(p, tools);
    DedupMembers(p.active);
    if p.state.Pi? {
      KeepAgrees(Dedup(p.active), Unmanaged(available), Unmanaged(reach));
      DedupDistinct(p.active);
      KeepDistinct(Dedup(p.active), Unmanaged(available));
    } else {
      RestoredIsTarget(p, tools, reach, target);
      RestoredDistinct(p.active, available, p.state.baseline, p.state.suppressed);
    }
    ActivateShows(p.active, target);
    var order := if p.state.Pi? then Dedup(p.active) else p.state.baseline;
    KeepMembers(order, Unmanaged(reach));
    KeepAll(target, Unmanaged(reach));
    DedupMembers(PiRestored(p, tools).active);
  }

  lemma RestoredIsTarget(p: Profile, tools: Registry, reach: set<Name>, target: seq<Name>)
    requires OnCourse(p, tools, reach, target) && p.state.Codex?
    ensures Restored(p.active, Available(p, tools), p.state.baseline, p.state.suppressed) == target
  {
    var available, baseline := Available(p, tools), p.state.baseline;
    DedupOfDistinct(baseline);
    DedupMembers(p.active);
    KeepMembers(Dedup(p.active), Additives(Elements(Dedup(p.active))));
    OnlyAdditiveKeep(Dedup(p.active), available);
    KeepAgrees(Live(p), available, reach);
    var additives := Keep(baseline, Additives(reach));
    KeepMembers(baseline, Additives(reach));
    var wanted := available * (Cores(Elements(p.state.suppressed)) + Elements(additives));
    KeepAgrees(baseline, wanted, Unmanaged(reach));
    KeepNone(additives, Elements(additives) - Elements(baseline));
  }

  lemma StepOnCourse(p: Profile, step: Step, tools: Registry, reach: set<Name>, target: seq<Name>, expected: Option<string>)
    requires OnCourse(p, tools, reach, target) && !step.Outside? && step.tools == tools
    ensures OnCourse(Apply(p, step, expected), tools, reach, target)
  {
    EnterOnCourse(p, tools, reach, target);
    var entered, q := InCodex(p, tools), Apply(p, step, expected);
    match step
    case Pend(_, _) =>
      var next := entered.(generation := p.generation + 1, notified := -1);
      ShownOnCourse(next, q, tools, [], reach, target);
    case Fail(_, _, _, _) => ShownOnCourse(entered, q, tools, [], reach, target);
    case Install(_, _, shown, _, _) =>
      ShownOnCourse(entered, q, tools, if Validated(tools, shown, expected).Owned? then shown else [], reach, target);
    case Revalidate(_, _) =>
      if IsHealthy(p) {
        var shown := p.state.shown;
        ShownOnCourse(p, q, tools, if Validated(tools, shown, expected).Owned? then shown else [], reach, target);
      }
    case Restore(_) => RestoreOnCourse(p, tools, reach, target);
  }

  lemma {:induction false} RunOnCourse(
    p: Profile, steps: seq<Step>, tools: Registry, reach: set<Name>, target: seq<Name>, expected: Option<string>)
    requires OnCourse(p, tools, reach, target)
    requires forall step :: step in steps ==> !step.Outside? && step.tools == tools
    ensures OnCourse(Run(p, steps, expected), tools, reach, target)
    decreases |steps|
  {
    if steps != [] {
      RunOnCourse(p, steps[..|steps| - 1], tools, reach, target, expected);
      StepOnCourse(Run(p, steps[..|steps| - 1], expected), steps[|steps| - 1], tools, reach, target, expected);
    }
  }

  /**
   Any operations, in any order and number, that see the same registry and end with a restore give
   back the original tools in their original order, less the managed and the unregistered ones.
   */
  lemma RunsRestoreOriginal(p: Profile, steps: seq<Step>, tools: Registry, expected: Option<string>)
    requires p.state.Pi? && forall step :: step in steps ==> !step.Outside? && step.tools == tools
    ensures Dedup(PiRestored(Run(p, steps, expected), tools).active)
         == Keep(Dedup(p.active), Unmanaged(Reach(p.active, tools)))
  {
    var reach := Reach(p.active, tools);
    var target := Keep(Dedup(p.active), Unmanaged(reach));
    RunOnCourse(p, steps, tools, reach, target, expected);
    RestoreOnCourse(Run(p, steps, expected), tools, reach, target);
  }

  // ---------------------------------------------------------------- the class

  /** The host's active tool list, and the conflict notices shown to the user. */
  class Host {
    var active: seq<Name>
    ghost var notices: seq<Notice>

    constructor (active: seq<Name>)
      ensures this.active == active && notices == []
    {
      this.active := active;
      notices := [];
    }
  }

  class CodexToolProfile {
    const host: Host
    const expected: Option<string>
    var state: ProfileState
    var readiness: Readiness
    var profileGeneration: nat
    var conflictNotificationGeneration: int

    ghost function View(): Profile
      reads this, host
    {
      Profile(host.active, state, readiness, profileGeneration, conflictNotificationGeneration, host.notices)
    }

    constructor (host: Host, expected: Option<string>)
      requires host.notices == []
      ensures View() == Fresh(host.active) && Consistent(View())
      ensures this.host == host && this.expected == expected
    {
      this.host := host;
      this.expected := expected;
      state := Pi;
      readiness := Inactive;
      profileGeneration := 0;
      conflictNotificationGeneration := -1;
    }

    method AvailableNames(tools: Registry) returns (names: set<Name>)
      ensures names == Available(View(), tools)
    {
      match tools {
        case Some(list) => names := set tool | tool in list :: tool.name;
        case None =>
          names := set n | n in host.active;
          if state.Codex? {
            names := names + (set n | n in state.baseline) + (set n | n in state.suppressed) + (set n | n in state.shown);
          }
      }
    }

    method ApplyActiveNames(next: seq<Name>)
      modifies host`active
      ensures host.active == Activate(old(host.active), next)
    {
      var current := OrderedUnique(host.active);
      var ordered := OrderedUnique(next);
      if current != ordered {
        host.active := ordered;
      }
    }

    method EnsureCodexState(tools: Registry)
      modifies this`state
      ensures View() == InCodex(old(View()), tools)
    {
      if state.Codex? {
        return;
      }
      var current := OrderedUnique(host.active);
      var available := AvailableNames(tools);
      state := Codex(Pending, current, Keep(current, Cores(available)), [], None);
    }

    method SuppressManagedTools(tools: Registry, phase: Phase) returns (suppressed: bool)
      modifies this`state, host`active
      ensures suppressed == old(state.Codex?)
      ensures View() == if suppressed then Suppressed(old(View()), tools, phase) else old(View())
    {
      if state.Pi? {
        return false;
      }
      var available := AvailableNames(tools);
      var names := Reconcile(host.active, available, []);
      ApplyActiveNames(names);
      state := state.(phase := phase, shown := [], loader := None);
      return true;
    }

    method EnterPending(tools: Registry, key: Option<Key>)
      modifies this, host`active
      ensures View() == Apply(old(View()), Pend(tools, key), expected)
    {
      EnsureCodexState(tools);
      profileGeneration := profileGeneration + 1;
      conflictNotificationGeneration := -1;
      var suppressed := SuppressManagedTools(tools, Pending);
      if suppressed {
        readiness := PendingFor(key);
      }
    }

    method InstallUnavailable(tools: Registry, key: Option<Key>, conflict: Option<Name>, notify: bool)
      modifies this, host
      ensures View() == Apply(old(View()), Fail(tools, key, conflict, notify), expected)
    {
      EnsureCodexState(tools);
      var suppressed := SuppressManagedTools(tools, Unavailable);
      if !suppressed {
        return;
      }
      readiness := UnavailableFor(key);
      if conflict.Some? && notify && conflictNotificationGeneration != profileGeneration {
        conflictNotificationGeneration := profileGeneration;
        host.notices := host.notices + [Notice(profileGeneration, conflict.value)];
      }
    }

    method InstallHealthy(tools: Registry, key: Key, shown: seq<Name>, loader: Option<Name>, notify: bool)
      returns (installed: bool)
      modifies this, host
      ensures View() == Apply(old(View()), Install(tools, key, shown, loader, notify), expected)
      ensures installed <==> IsHealthy(View()) && readiness == HealthyFor(key)
    {
      EnsureCodexState(tools);
      var ownership := ValidateOwnership(tools, shown, expected);
      if ownership.NotOwned? {
        InstallUnavailable(tools, Some(key), ownership.conflict, notify);
        return false;
      }
      var available := AvailableNames(tools);
      var names := Reconcile(host.active, available, shown);
      ApplyActiveNames(names);
      var ordered := OrderedUnique(shown);
      state := state.(phase := Healthy, shown := Keep(ordered, set n | n in shown && n.Managed?), loader := loader);
      assert state.shown == OrderedManaged(shown) by {
        assert ManagedIn(Elements(shown)) == set n | n in shown && n.Managed?;
      }
      readiness := HealthyFor(key);
      return true;
    }

    method RevalidateHealthyOwnership(tools: Registry, notify: bool) returns (healthy: bool)
      modifies this, host
      ensures View() == Apply(old(View()), Revalidate(tools, notify), expected)
      ensures healthy <==> IsHealthy(View())
    {
      if state.Pi? || !state.phase.Healthy? {
        return false;
      }
      var ownership := ValidateOwnership(tools, state.shown, expected);
      if ownership.NotOwned? {
        var key := if readiness.HealthyFor? then Some(readiness.known) else None;
        InstallUnavailable(tools, key, ownership.conflict, notify);
        return false;
      }
      var available := AvailableNames(tools);
      var names := Reconcile(host.active, available, state.shown);
      ApplyActiveNames(names);
      return true;
    }

    method RestorePi(tools: Registry)
      modifies this, host`active
      ensures View() == Apply(old(View()), Restore(tools), expected)
    {
      var available := AvailableNames(tools);
      var names: seq<Name>;
      if state.Codex? {
        names := RestoreNames(host.active, available, state.baseline, state.suppressed);
      } else {
        var unique := OrderedUnique(host.active);
        names := Keep(unique, Unmanaged(available));
      }
      ApplyActiveNames(names);
      state := Pi;
      readiness := Inactive;
    }
  }
}
