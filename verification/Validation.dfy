/** The two validators of config sources and file mounts: the controller's, which stops at the
    first problem, and the admission webhook's, which collects them all. */
module Validation {
  import opened Prelude
  import opened Api
  import Paths

  // ---- what a valid spec is ------------------------------------------------------------

  function SourceCount(source: ConfigSource): nat {
    (if source.raw != [] then 1 else 0)
    + (if source.configMapRef.Some? then 1 else 0)
    + (if source.secretRef.Some? then 1 else 0)
  }

  predicate NamedKey(selector: Option<KeySelector>) {
    selector.Some? ==> selector.value.name != "" && selector.value.key != ""
  }

  predicate ValidSource(source: ConfigSource) {
    SourceCount(source) <= 1 && NamedKey(source.configMapRef) && NamedKey(source.secretRef)
  }

  predicate ValidMode(mode: Option<int>) {
    mode.Some? ==> 0 <= mode.value <= 0x1FF
  }

  ghost predicate ValidItem(item: ProjectionItem) {
    item.key != "" && Paths.PlainRelativePath(item.path) && ValidMode(item.mode)
  }

  ghost predicate ValidItems(items: seq<ProjectionItem>) {
    && (forall j :: 0 <= j < |items| ==> ValidItem(items[j]))
    && (forall j, k :: 0 <= j < k < |items| ==> items[j].key != items[k].key)
    && (forall j, k :: 0 <= j < k < |items| ==> items[j].path != items[k].path)
  }

  predicate ValidTarget(mount: FileMount) {
    && mount.configMapRef.Some? != mount.secretRef.Some?
    && mount.configMapRef != Some("") && mount.secretRef != Some("")
    && Paths.IsAbs(mount.mountPath)
    && ValidMode(mount.defaultMode)
  }

  ghost predicate ValidMounts(mounts: seq<FileMount>) {
    && (forall i :: 0 <= i < |mounts| ==> ValidTarget(mounts[i]) && ValidItems(mounts[i].items))
    && (forall i, k :: 0 <= i < k < |mounts| ==> mounts[i].mountPath != mounts[k].mountPath)
  }

  ghost predicate ValidConfig(spec: AgentSpec) {
    ValidMounts(spec.fileMounts) && ValidSource(spec.config) && ValidSource(spec.gatewayConfig)
  }

  // ---- the controller: fail fast ---------------------------------------------------------

  datatype ItemProblem =
    | KeyMissing | KeyRepeated(previous: nat)
    | PathMissing | PathAbsolute | PathSegments | PathRepeated(previous: nat) | ModeOutOfRange

  datatype MountProblem =
    | TwoSources | NoSource | MountPathMissing | MountPathRelative | MountPathRepeated(previous: nat)
    | ConfigMapUnnamed | SecretUnnamed | DefaultModeOutOfRange | BadItem(j: nat, item: ItemProblem)

  datatype SourceProblem = SeveralSources | ConfigMapIncomplete | SecretIncomplete

  /** The first problem of a spec, with everything its error text is printed from. */
  datatype ConfigError = BadMount(i: nat, mount: MountProblem) | BadConfig(source: SourceProblem)
    | BadGatewayConfig(source: SourceProblem)

  function FirstIndex(s: seq<string>, x: string): (r: Option<nat>)
    ensures r.None? <==> x !in s
    ensures r.Some? ==> r.value < |s| && s[r.value] == x && x !in s[..r.value]
  {
    if s == [] then None
    else
      var last := |s| - 1;
      var front := FirstIndex(s[..last], x);
      assert s == s[..last] + [s[last]];
      if front.Some? then assert s[..last][..front.value] == s[..front.value]; front
      else if s[last] == x then Some(last) else None
  }

  function KeysOf(items: seq<ProjectionItem>): seq<string> {
    seq(|items|, i requires 0 <= i < |items| => items[i].key)
  }

  function PathsOf(items: seq<ProjectionItem>): seq<string> {
    seq(|items|, i requires 0 <= i < |items| => items[i].path)
  }

  function MountPathsOf(mounts: seq<FileMount>): seq<string> {
    seq(|mounts|, i requires 0 <= i < |mounts| => mounts[i].mountPath)
  }

  /** What is wrong with an item that follows these, checked in the order of the code. */
  function ProblemOfItem(before: seq<ProjectionItem>, item: ProjectionItem): Option<ItemProblem> {
    var key, path := FirstIndex(KeysOf(before), item.key), FirstIndex(PathsOf(before), item.path);
    if item.key == "" then Some(KeyMissing)
    else if key.Some? then Some(KeyRepeated(key.value))
    else if item.path == "" then Some(PathMissing)
    else if Paths.IsAbs(item.path) then Some(PathAbsolute)
    else if !Paths.ItemPathAccepted(item.path) then Some(PathSegments)
    else if path.Some? then Some(PathRepeated(path.value))
    else if !ValidMode(item.mode) then Some(ModeOutOfRange)
    else None
  }

  function ProblemOfItems(items: seq<ProjectionItem>): Option<MountProblem> {
    if items == [] then None
    else
      var last := |items| - 1;
      var front := ProblemOfItems(items[..last]);
      if front.Some? then front
      else
        var problem := ProblemOfItem(items[..last], items[last]);
        if problem.Some? then Some(BadItem(last, problem.value)) else None
  }

  function ProblemOfMount(before: seq<FileMount>, mount: FileMount): Option<MountProblem> {
    var previous := FirstIndex(MountPathsOf(before), mount.mountPath);
    if mount.configMapRef.Some? && mount.secretRef.Some? then Some(TwoSources)
    else if mount.configMapRef.None? && mount.secretRef.None? then Some(NoSource)
    else if mount.mountPath == "" then Some(MountPathMissing)
    else if !Paths.IsAbs(mount.mountPath) then Some(MountPathRelative)
    else if previous.Some? then Some(MountPathRepeated(previous.value))
    else if mount.configMapRef == Some("") then Some(ConfigMapUnnamed)
    else if mount.secretRef == Some("") then Some(SecretUnnamed)
    else if !ValidMode(mount.defaultMode) then Some(DefaultModeOutOfRange)
    else ProblemOfItems(mount.items)
  }

  function ProblemOfMounts(mounts: seq<FileMount>): Option<ConfigError> {
    if mounts == [] then None
    else
      var last := |mounts| - 1;
      var front := ProblemOfMounts(mounts[..last]);
      if front.Some? then front
      else
        var problem := ProblemOfMount(mounts[..last], mounts[last]);
        if problem.Some? then Some(BadMount(last, problem.value)) else None
  }

  function ProblemOfSource(source: ConfigSource): Option<SourceProblem> {
    if SourceCount(source) > 1 then Some(SeveralSources)
    else if !NamedKey(source.configMapRef) then Some(ConfigMapIncomplete)
    else if !NamedKey(source.secretRef) then Some(SecretIncomplete)
    else None
  }

  function ConfigProblem(spec: AgentSpec): Option<ConfigError> {
    var mounts, config := ProblemOfMounts(spec.fileMounts), ProblemOfSource(spec.config);
    var gateway := ProblemOfSource(spec.gatewayConfig);
    if mounts.Some? then mounts
    else if config.Some? then Some(BadConfig(config.value))
    else if gateway.Some? then Some(BadGatewayConfig(gateway.value))
    else None
  }

  lemma ItemChecked(before: seq<ProjectionItem>, item: ProjectionItem)
    requires ValidItems(before)
    ensures ProblemOfItem(before, item).None? <==> ValidItems(before + [item])
  {
    Paths.ItemPathExact(item.path);
    Paths.ItemPathExact("");
    ItemsExtend(before, item);
    assert forall x :: 0 <= x < |before| ==> KeysOf(before)[x] == before[x].key && PathsOf(before)[x] == before[x].path;
    hide ValidItems, Paths.ItemPathAccepted, Paths.PlainRelativePath, FirstIndex;
    assert item.key in KeysOf(before) <==> exists x :: 0 <= x < |before| && before[x].key == item.key;
    assert item.path in PathsOf(before) <==> exists x :: 0 <= x < |before| && before[x].path == item.path;
  }

  lemma {:induction false} ItemsChecked(items: seq<ProjectionItem>)
    ensures ProblemOfItems(items).None? <==> ValidItems(items)
  {
    if items != [] {
      var front, last := items[..|items| - 1], items[|items| - 1];
      assert items == front + [last];
      ItemsChecked(front);
      ItemsExtend(front, last);
      if ValidItems(front) { ItemChecked(front, last); }
      hide ValidItems, ProblemOfItem;
    }
  }

  lemma MountChecked(before: seq<FileMount>, mount: FileMount)
    requires ValidMounts(before)
    ensures ProblemOfMount(before, mount).None? <==> ValidMounts(before + [mount])
  {
    ItemsChecked(mount.items);
    MountsExtend(before, mount);
    assert forall x :: 0 <= x < |before| ==> MountPathsOf(before)[x] == before[x].mountPath;
    hide ValidMounts, ValidItems, ProblemOfItems, FirstIndex;
    assert mount.mountPath in MountPathsOf(before) <==>
      exists x :: 0 <= x < |before| && before[x].mountPath == mount.mountPath;
  }

  lemma {:induction false} MountsChecked(mounts: seq<FileMount>)
    ensures ProblemOfMounts(mounts).None? <==> ValidMounts(mounts)
  {
    if mounts != [] {
      var front, last := mounts[..|mounts| - 1], mounts[|mounts| - 1];
      assert mounts == front + [last];
      MountsChecked(front);
      MountsExtend(front, last);
      if ValidMounts(front) { MountChecked(front, last); }
      hide ValidMounts, ProblemOfMount;
    }
  }

  /** The fail-fast checks find a problem exactly in the specs that are not valid. */
  lemma ConfigProblemExact(spec: AgentSpec)
    ensures ConfigProblem(spec).None? <==> ValidConfig(spec)
  {
    MountsChecked(spec.fileMounts);
    hide ProblemOfMounts, ValidMounts;
  }

  // ---- the problem is real, and the first one --------------------------------------------------------

  /** Position `at` repeats position `previous`, the first of its kind. */
  ghost predicate Repeats(s: seq<string>, at: nat, previous: nat) {
    previous < at < |s| && s[previous] == s[at] && forall k :: 0 <= k < previous ==> s[k] != s[at]
  }

  /** The problem is one of item j, and everything the code checks before it is in order. */
  ghost predicate ItemProblemTrue(items: seq<ProjectionItem>, j: nat, problem: ItemProblem) {
    && j < |items| && ValidItems(items[..j])
    && (problem.KeyMissing? <==> items[j].key == "")
    && (problem.KeyRepeated? ==> Repeats(KeysOf(items), j, problem.previous))
    && (problem.PathMissing? ==> items[j].path == "")
    && (problem.PathAbsolute? ==> items[j].path != "" && items[j].path[0] == '/')
    && (problem.PathSegments? ==>
        items[j].path != "" && items[j].path[0] != '/' && !Paths.PlainRelativePath(items[j].path))
    && (problem.PathRepeated? ==>
        Paths.PlainRelativePath(items[j].path) && Repeats(PathsOf(items), j, problem.previous))
    && (problem.ModeOutOfRange? ==> Paths.PlainRelativePath(items[j].path) && !ValidMode(items[j].mode))
  }

  ghost predicate MountProblemTrue(mounts: seq<FileMount>, i: nat, problem: MountProblem) {
    && i < |mounts| && ValidMounts(mounts[..i])
    && (problem.TwoSources? <==> mounts[i].configMapRef.Some? && mounts[i].secretRef.Some?)
    && (problem.NoSource? <==> mounts[i].configMapRef.None? && mounts[i].secretRef.None?)
    && (problem.MountPathMissing? ==> mounts[i].mountPath == "")
    && (problem.MountPathRelative? ==> mounts[i].mountPath != "" && mounts[i].mountPath[0] != '/')
    && (problem.MountPathRepeated? ==> Repeats(MountPathsOf(mounts), i, problem.previous))
    && (problem.ConfigMapUnnamed? ==> mounts[i].configMapRef == Some(""))
    && (problem.SecretUnnamed? ==> mounts[i].secretRef == Some(""))
    && (problem.DefaultModeOutOfRange? ==> !ValidMode(mounts[i].defaultMode))
    && (problem.BadItem? ==> ValidTarget(mounts[i]) && ItemProblemTrue(mounts[i].items, problem.j, problem.item))
  }

  ghost predicate SourceProblemTrue(source: ConfigSource, problem: SourceProblem) {
    && (problem.SeveralSources? <==> SourceCount(source) > 1)
    && (problem.ConfigMapIncomplete? ==> source.configMapRef.Some? && !NamedKey(source.configMapRef))
    && (problem.SecretIncomplete? ==> source.secretRef.Some? && !NamedKey(source.secretRef))
  }

  ghost predicate ProblemTrue(spec: AgentSpec, error: ConfigError) {
    match error
    case BadMount(i, problem) => MountProblemTrue(spec.fileMounts, i, problem)
    case BadConfig(problem) => ValidMounts(spec.fileMounts) && SourceProblemTrue(spec.config, problem)
    case BadGatewayConfig(problem) =>
      ValidMounts(spec.fileMounts) && ValidSource(spec.config) && SourceProblemTrue(spec.gatewayConfig, problem)
  }

  lemma RepeatedAt(s: seq<string>, at: nat, x: string)
    requires at < |s| && s[at] == x && FirstIndex(s[..at], x).Some?
    ensures Repeats(s, at, FirstIndex(s[..at], x).value)
  {
    var previous := FirstIndex(s[..at], x).value;
    assert s[..at][..previous] == s[..previous];
    forall k | 0 <= k < previous ensures s[k] != x { assert s[..previous][k] == s[k]; }
  }

  lemma ItemProblemAt(items: seq<ProjectionItem>, j: nat)
    requires j < |items| && ValidItems(items[..j]) && ProblemOfItem(items[..j], items[j]).Some?
    ensures ItemProblemTrue(items, j, ProblemOfItem(items[..j], items[j]).value)
  {
    assert KeysOf(items[..j]) == KeysOf(items)[..j] && PathsOf(items[..j]) == PathsOf(items)[..j];
    Paths.ItemPathExact(items[j].path);
    Paths.ItemPathExact("");
    hide ValidItems, FirstIndex, Repeats, Paths.PlainRelativePath, Paths.ItemPathAccepted;
    if FirstIndex(KeysOf(items[..j]), items[j].key).Some? { RepeatedAt(KeysOf(items), j, items[j].key); }
    if FirstIndex(PathsOf(items[..j]), items[j].path).Some? { RepeatedAt(PathsOf(items), j, items[j].path); }
  }

  lemma {:induction false} ItemsProblemTrue(items: seq<ProjectionItem>, n: nat)
    requires n <= |items| && ProblemOfItems(items[..n]).Some?
    ensures var problem := ProblemOfItems(items[..n]).value;
      problem.BadItem? && ItemProblemTrue(items, problem.j, problem.item)
    decreases n
  {
    hide ItemProblemTrue, ProblemOfItem, ValidItems;
    var last := n - 1;
    assert items[..n][..last] == items[..last];
    if ProblemOfItems(items[..last]).Some? {
      ItemsProblemTrue(items, last);
    } else {
      ItemsChecked(items[..last]);
      ItemProblemAt(items, last);
    }
  }

  lemma MountProblemAt(mounts: seq<FileMount>, i: nat)
    requires i < |mounts| && ValidMounts(mounts[..i]) && ProblemOfMount(mounts[..i], mounts[i]).Some?
    ensures MountProblemTrue(mounts, i, ProblemOfMount(mounts[..i], mounts[i]).value)
  {
    hide ValidMounts, FirstIndex, Repeats, ProblemOfItems, ItemProblemTrue, ValidItems, ValidMode;
    assert MountPathsOf(mounts[..i]) == MountPathsOf(mounts)[..i];
    if FirstIndex(MountPathsOf(mounts[..i]), mounts[i].mountPath).Some? {
      RepeatedAt(MountPathsOf(mounts), i, mounts[i].mountPath);
    }
    var items := mounts[i].items;
    assert items[..|items|] == items;
    if ProblemOfItems(items).Some? { ItemsProblemTrue(items, |items|); }
  }

  lemma {:induction false} MountsProblemTrue(mounts: seq<FileMount>, n: nat)
    requires n <= |mounts| && ProblemOfMounts(mounts[..n]).Some?
    ensures var error := ProblemOfMounts(mounts[..n]).value;
      error.BadMount? && MountProblemTrue(mounts, error.i, error.mount)
    decreases n
  {
    hide MountProblemTrue, ProblemOfMount, ValidMounts;
    var last := n - 1;
    assert mounts[..n][..last] == mounts[..last];
    if ProblemOfMounts(mounts[..last]).Some? {
      MountsProblemTrue(mounts, last);
    } else {
      MountsChecked(mounts[..last]);
      MountProblemAt(mounts, last);
    }
  }

  /** The problem reported for an invalid spec is a true one: of the first offending mount and item, or of a source when
      the mounts are in order, and a repetition names the first position it repeats. */
  lemma ConfigProblemTrue(spec: AgentSpec)
    ensures ConfigProblem(spec).Some? ==> ProblemTrue(spec, ConfigProblem(spec).value)
  {
    hide MountProblemTrue, ProblemOfMounts, ValidMounts;
    var mounts := spec.fileMounts;
    MountsChecked(mounts);
    assert mounts[..|mounts|] == mounts;
    if ProblemOfMounts(mounts).Some? { MountsProblemTrue(mounts, |mounts|); }
  }

  lemma {:induction false} ItemProblemPersists(items: seq<ProjectionItem>, n: nat)
    requires n <= |items| && ProblemOfItems(items[..n]).Some?
    ensures ProblemOfItems(items) == ProblemOfItems(items[..n])
    decreases |items| - n
  {
    if n == |items| {
      assert items[..n] == items;
    } else {
      assert items[..n + 1][..n] == items[..n];
      ItemProblemPersists(items, n + 1);
    }
  }

  lemma {:induction false} MountProblemPersists(mounts: seq<FileMount>, n: nat)
    requires n <= |mounts| && ProblemOfMounts(mounts[..n]).Some?
    ensures ProblemOfMounts(mounts) == ProblemOfMounts(mounts[..n])
    decreases |mounts| - n
  {
    if n == |mounts| {
      assert mounts[..n] == mounts;
    } else {
      assert mounts[..n + 1][..n] == mounts[..n];
      MountProblemPersists(mounts, n + 1);
    }
  }

  /** The map of positions seen so far. */
  ghost predicate Positions(seen: map<string, nat>, s: seq<string>) {
    forall x :: Lookup(seen, x) == FirstIndex(s, x)
  }

  lemma PositionsNext(seen: map<string, nat>, s: seq<string>, x: string)
    requires Positions(seen, s) && x !in seen
    ensures Positions(seen[x := |s|], s + [x])
  {
    forall y ensures Lookup(seen[x := |s|], y) == FirstIndex(s + [x], y) {
      assert (s + [x])[..|s|] == s;
      assert Lookup(seen, y) == FirstIndex(s, y) && Lookup(seen, x).None?;
    }
  }

  method ValidateItems(items: seq<ProjectionItem>) returns (error: Option<MountProblem>)
    ensures error == ProblemOfItems(items)
    ensures error.None? <==> ValidItems(items)
  {
    hide ValidItems, FirstIndex, Positions, ValidMode, Paths.ItemPathAccepted;
    ItemsChecked(items);
    var seenKeys: map<string, nat>, seenPaths: map<string, nat> := map[], map[];
    NothingSeen();
    assert KeysOf(items[..0]) == [] && PathsOf(items[..0]) == [];
    for j := 0 to |items|
      invariant ProblemOfItems(items[..j]).None?
      invariant Positions(seenKeys, KeysOf(items[..j])) && Positions(seenPaths, PathsOf(items[..j]))
    {
      var item := items[j];
      ghost var before := items[..j];
      ItemStep(items, j);
      Seen(seenKeys, KeysOf(before), item.key);
      Seen(seenPaths, PathsOf(before), item.path);
      if ProblemOfItem(before, item).Some? { ItemProblemPersists(items, j + 1); }
      if item.key == "" { return Some(BadItem(j, KeyMissing)); }
      if item.key in seenKeys { return Some(BadItem(j, KeyRepeated(seenKeys[item.key]))); }
      PositionsNext(seenKeys, KeysOf(before), item.key);
      seenKeys := seenKeys[item.key := j];
      if item.path == "" { return Some(BadItem(j, PathMissing)); }
      if Paths.IsAbs(item.path) { return Some(BadItem(j, PathAbsolute)); }
      if !Paths.ItemPathAccepted(item.path) { return Some(BadItem(j, PathSegments)); }
      if item.path in seenPaths { return Some(BadItem(j, PathRepeated(seenPaths[item.path]))); }
      PositionsNext(seenPaths, PathsOf(before), item.path);
      seenPaths := seenPaths[item.path := j];
      if !ValidMode(item.mode) { return Some(BadItem(j, ModeOutOfRange)); }
    }
    assert items[..|items|] == items;
    return None;
  }

  lemma NothingSeen()
    ensures Positions(map[], [])
  {
  }

  lemma Seen(seen: map<string, nat>, s: seq<string>, x: string)
    requires Positions(seen, s)
    ensures Lookup(seen, x) == FirstIndex(s, x)
  {
  }

  lemma ItemStep(items: seq<ProjectionItem>, j: nat)
    requires j < |items| && ProblemOfItems(items[..j]).None?
    ensures var problem := ProblemOfItem(items[..j], items[j]);
      ProblemOfItems(items[..j + 1]) == if problem.Some? then Some(BadItem(j, problem.value)) else None
    ensures KeysOf(items[..j + 1]) == KeysOf(items[..j]) + [items[j].key] && |KeysOf(items[..j])| == j
    ensures PathsOf(items[..j + 1]) == PathsOf(items[..j]) + [items[j].path] && |PathsOf(items[..j])| == j
  {
    hide ProblemOfItem;
    assert items[..j + 1][..j] == items[..j];
  }

  lemma MountStep(mounts: seq<FileMount>, i: nat)
    requires i < |mounts|
    ensures var earlier, problem := ProblemOfMounts(mounts[..i]), ProblemOfMount(mounts[..i], mounts[i]);
      ProblemOfMounts(mounts[..i + 1]) ==
        if earlier.Some? then earlier else if problem.Some? then Some(BadMount(i, problem.value)) else None
    ensures MountPathsOf(mounts[..i + 1]) == MountPathsOf(mounts[..i]) + [mounts[i].mountPath]
    ensures |MountPathsOf(mounts[..i])| == i
  {
    hide ProblemOfMount;
    assert mounts[..i + 1][..i] == mounts[..i];
  }

  method ValidateFileMountSpecs(mounts: seq<FileMount>) returns (error: Option<ConfigError>)
    ensures error == ProblemOfMounts(mounts)
    ensures error.None? <==> ValidMounts(mounts)
  {
    hide ValidMounts, ValidItems, FirstIndex, Positions, ValidMode, ProblemOfItems;
    MountsChecked(mounts);
    var seen: map<string, nat> := map[];
    NothingSeen();
    assert MountPathsOf(mounts[..0]) == [];
    for i := 0 to |mounts|
      invariant ProblemOfMounts(mounts[..i]).None? && Positions(seen, MountPathsOf(mounts[..i]))
    {
      var mount := mounts[i];
      ghost var before := mounts[..i];
      MountStep(mounts, i);
      Seen(seen, MountPathsOf(before), mount.mountPath);
      if ProblemOfMount(before, mount).Some? { MountProblemPersists(mounts, i + 1); }
      var hasConfigMap, hasSecret := mount.configMapRef.Some?, mount.secretRef.Some?;
      if hasConfigMap && hasSecret { return Some(BadMount(i, TwoSources)); }
      if !hasConfigMap && !hasSecret { return Some(BadMount(i, NoSource)); }
      if mount.mountPath == "" { return Some(BadMount(i, MountPathMissing)); }
      if !Paths.IsAbs(mount.mountPath) { return Some(BadMount(i, MountPathRelative)); }
      if mount.mountPath in seen { return Some(BadMount(i, MountPathRepeated(seen[mount.mountPath]))); }
      PositionsNext(seen, MountPathsOf(before), mount.mountPath);
      seen := seen[mount.mountPath := i];
      if mount.configMapRef == Some("") { return Some(BadMount(i, ConfigMapUnnamed)); }
      if mount.secretRef == Some("") { return Some(BadMount(i, SecretUnnamed)); }
      if !ValidMode(mount.defaultMode) { return Some(BadMount(i, DefaultModeOutOfRange)); }
      var itemError := ValidateItems(mount.items);
      if itemError.Some? { return Some(BadMount(i, itemError.value)); }
    }
    assert mounts[..|mounts|] == mounts;
    return None;
  }

  lemma ItemsNone()
    ensures ValidItems([]) && KeysBefore([]) == {} && PathsBefore([]) == {}
  {
  }

  // ---- the webhook: collect everything ------------------------------------------------------

  datatype FieldError = Required(field: string, at: seq<nat>) | Invalid(field: string, at: seq<nat>)

  predicate SourceFault(source: ConfigSource, e: FieldError) {
    || (SourceCount(source) > 1 && e == Invalid("", []))
    || (source.configMapRef.Some? && source.configMapRef.value.name == "" && e == Required("configMapRef.name", []))
    || (source.configMapRef.Some? && source.configMapRef.value.key == "" && e == Required("configMapRef.key", []))
    || (source.secretRef.Some? && source.secretRef.value.name == "" && e == Required("secretRef.name", []))
    || (source.secretRef.Some? && source.secretRef.value.key == "" && e == Required("secretRef.key", []))
  }

  method ValidateConfigSource(source: ConfigSource) returns (errors: seq<FieldError>)
    ensures errors == [] <==> ValidSource(source)
    ensures forall e :: e in errors <==> SourceFault(source, e)
  {
    errors := [];
    var sourceCount := 0;
    if source.raw != [] { sourceCount := sourceCount + 1; }
    if source.configMapRef.Some? { sourceCount := sourceCount + 1; }
    if source.secretRef.Some? { sourceCount := sourceCount + 1; }
    if sourceCount > 1 { errors := errors + [Invalid("", [])]; }
    if source.configMapRef.Some? {
      if source.configMapRef.value.name == "" { errors := errors + [Required("configMapRef.name", [])]; }
      if source.configMapRef.value.key == "" { errors := errors + [Required("configMapRef.key", [])]; }
    }
    if source.secretRef.Some? {
      if source.secretRef.value.name == "" { errors := errors + [Required("secretRef.name", [])]; }
      if source.secretRef.value.key == "" { errors := errors + [Required("secretRef.key", [])]; }
    }
  }

  /** What is wrong with one item, given whether its key and its path were seen before. */
  ghost predicate ItemFault(item: ProjectionItem, at: seq<nat>, keySeen: bool, pathSeen: bool, e: FieldError) {
    || (item.key == "" && e == Required("items.key", at))
    || (item.key != "" && keySeen && e == Invalid("items.key", at))
    || (item.path == "" && e == Required("items.path", at))
    || (item.path != "" && (pathSeen || !Paths.PlainRelativePath(item.path)) && e == Invalid("items.path", at))
    || (!ValidMode(item.mode) && e == Invalid("items.mode", at))
  }

  ghost predicate ItemsFault(items: seq<ProjectionItem>, i: nat, e: FieldError) {
    exists j :: 0 <= j < |items| && ItemFault(items[j], [i, j], items[j].key in KeysBefore(items[..j]),
      items[j].path in PathsBefore(items[..j]), e)
  }

  predicate MountFault(mount: FileMount, i: nat, pathSeen: bool, e: FieldError) {
    || (mount.configMapRef.Some? == mount.secretRef.Some? && e == Invalid("fileMounts", [i]))
    || (mount.mountPath == "" && e == Required("mountPath", [i]))
    || (mount.mountPath != "" && (pathSeen || mount.mountPath[0] != '/') && e == Invalid("mountPath", [i]))
    || (mount.configMapRef == Some("") && e == Required("configMapRef.name", [i]))
    || (mount.secretRef == Some("") && e == Required("secretRef.name", [i]))
    || (!ValidMode(mount.defaultMode) && e == Invalid("defaultMode", [i]))
  }

  /** The body of the loop over items: one item against the keys and paths seen before it. */
  method CollectOneItem(at: seq<nat>, item: ProjectionItem, seenKeys: map<string, seq<nat>>, seenPaths: map<string,
        seq<nat>>)
    returns (errors: seq<FieldError>, keys: map<string, seq<nat>>, paths: map<string, seq<nat>>)
    ensures errors == [] <==> ValidItem(item) && item.key !in seenKeys && item.path !in seenPaths
    ensures keys.Keys == seenKeys.Keys + (if item.key == "" then {} else {item.key})
    ensures paths.Keys == seenPaths.Keys + (if item.path == "" then {} else {item.path})
    ensures forall e :: e in errors <==> ItemFault(item, at, item.key in seenKeys, item.path in seenPaths, e)
  {
    errors, keys, paths := [], seenKeys, seenPaths;
    Paths.ItemPathExact(item.path);
    if item.key == "" {
      errors := errors + [Required("items.key", at)];
    } else if item.key in keys {
      errors := errors + [Invalid("items.key", at)];
    } else {
      keys := keys[item.key := at];
    }
    if item.path == "" {
      errors := errors + [Required("items.path", at)];
    } else {
      if !Paths.ItemPathAccepted(item.path) { errors := errors + [Invalid("items.path", at)]; }
      if item.path in paths {
        errors := errors + [Invalid("items.path", at)];
      } else {
        paths := paths[item.path := at];
      }
    }
    if !ValidMode(item.mode) { errors := errors + [Invalid("items.mode", at)]; }
  }

  ghost function KeysBefore(items: seq<ProjectionItem>): set<string> {
    (set x | x in items :: x.key) - {""}
  }

  ghost function PathsBefore(items: seq<ProjectionItem>): set<string> {
    (set x | x in items :: x.path) - {""}
  }

  lemma CollectStep(items: seq<ProjectionItem>, item: ProjectionItem)
    ensures ValidItems(items + [item]) <==>
      ValidItems(items) && ValidItem(item) && item.key !in KeysBefore(items) && item.path !in PathsBefore(items)
    ensures KeysBefore(items + [item]) == KeysBefore(items) + (if item.key == "" then {} else {item.key})
    ensures PathsBefore(items + [item]) == PathsBefore(items) + (if item.path == "" then {} else {item.path})
  {
    ItemsExtend(items, item);
    Paths.ItemPathExact("");
    assert ValidItem(item) ==> item.path != "";
  }

  method CollectItemErrors(i: nat, items: seq<ProjectionItem>) returns (errors: seq<FieldError>)
    ensures errors == [] <==> ValidItems(items)
    ensures forall e :: e in errors <==> ItemsFault(items, i, e)
  {
    hide ValidItems, KeysBefore, PathsBefore, ItemFault;
    ItemsNone();
    errors := [];
    var seenKeys: map<string, seq<nat>>, seenPaths: map<string, seq<nat>> := map[], map[];
    for j := 0 to |items|
      invariant errors == [] <==> ValidItems(items[..j])
      invariant forall e :: e in errors <==> exists k :: 0 <= k < j && ItemFault(items[k], [i, k],
        items[k].key in KeysBefore(items[..k]), items[k].path in PathsBefore(items[..k]), e)
      invariant seenKeys.Keys == KeysBefore(items[..j])
      invariant seenPaths.Keys == PathsBefore(items[..j])
    {
      assert items[..j + 1] == items[..j] + [items[j]];
      CollectStep(items[..j], items[j]);
      var itemErrors, keys, paths := CollectOneItem([i, j], items[j], seenKeys, seenPaths);
      errors, seenKeys, seenPaths := errors + itemErrors, keys, paths;
    }
    assert items[..|items|] == items;
  }

  lemma ItemsExtend(items: seq<ProjectionItem>, item: ProjectionItem)
    ensures ValidItems(items + [item]) <==>
      && ValidItems(items) && ValidItem(item)
      && (forall x :: 0 <= x < |items| ==> items[x].key != item.key)
      && (forall x :: 0 <= x < |items| ==> items[x].path != item.path)
  {
    var all := items + [item];
    assert forall x :: 0 <= x < |items| ==> all[x] == items[x];
    assert all[|items|] == item;
  }

  lemma MountsExtend(mounts: seq<FileMount>, mount: FileMount)
    ensures ValidMounts(mounts + [mount]) <==>
      && ValidMounts(mounts) && ValidTarget(mount) && ValidItems(mount.items)
      && (forall x :: 0 <= x < |mounts| ==> mounts[x].mountPath != mount.mountPath)
  {
    var all := mounts + [mount];
    assert forall x :: 0 <= x < |mounts| ==> all[x] == mounts[x];
    assert all[|mounts|] == mount;
  }

  /** The body of the loop over mounts: one mount against the mount paths seen before it. */
  method CollectOneMount(i: nat, mount: FileMount, seen: map<string, nat>)
    returns (errors: seq<FieldError>, paths: map<string, nat>)
    ensures errors == [] <==> ValidTarget(mount) && ValidItems(mount.items) && mount.mountPath !in seen
    ensures paths.Keys == seen.Keys + (if mount.mountPath == "" then {} else {mount.mountPath})
    ensures forall e :: e in errors <==>
      MountFault(mount, i, mount.mountPath in seen, e) || ItemsFault(mount.items, i, e)
  {
    hide ItemsFault, ValidItems, ValidMode;
    errors, paths := [], seen;
    var hasConfigMap, hasSecret := mount.configMapRef.Some?, mount.secretRef.Some?;
    if hasConfigMap && hasSecret {
      errors := errors + [Invalid("fileMounts", [i])];
    } else if !hasConfigMap && !hasSecret {
      errors := errors + [Invalid("fileMounts", [i])];
    }
    if mount.mountPath == "" {
      errors := errors + [Required("mountPath", [i])];
    } else {
      if mount.mountPath[0] != '/' { errors := errors + [Invalid("mountPath", [i])]; }
      if mount.mountPath in paths {
        errors := errors + [Invalid("mountPath", [i])];
      } else {
        paths := paths[mount.mountPath := i];
      }
    }
    if mount.configMapRef == Some("") { errors := errors + [Required("configMapRef.name", [i])]; }
    if mount.secretRef == Some("") { errors := errors + [Required("secretRef.name", [i])]; }
    if !ValidMode(mount.defaultMode) { errors := errors + [Invalid("defaultMode", [i])]; }
    var itemErrors := CollectItemErrors(i, mount.items);
    errors := errors + itemErrors;
  }

  ghost function MountPathsBefore(mounts: seq<FileMount>): set<string> {
    (set x | x in mounts :: x.mountPath) - {""}
  }

  ghost predicate MountsFault(mounts: seq<FileMount>, i: nat, e: FieldError)
    requires i < |mounts|
  {
    || MountFault(mounts[i], i, mounts[i].mountPath in MountPathsBefore(mounts[..i]), e)
    || ItemsFault(mounts[i].items, i, e)
  }

  lemma CollectMountStep(mounts: seq<FileMount>, mount: FileMount)
    ensures ValidMounts(mounts + [mount]) <==>
      && ValidMounts(mounts) && ValidTarget(mount) && ValidItems(mount.items)
      && mount.mountPath !in MountPathsBefore(mounts)
    ensures MountPathsBefore(mounts + [mount]) ==
      MountPathsBefore(mounts) + (if mount.mountPath == "" then {} else {mount.mountPath})
  {
    hide ValidItems;
    MountsExtend(mounts, mount);
    assert ValidTarget(mount) ==> mount.mountPath != "";
    hide ValidMounts, ValidTarget;
    if mount.mountPath !in MountPathsBefore(mounts) && mount.mountPath != "" {
      forall x | 0 <= x < |mounts| ensures mounts[x].mountPath != mount.mountPath { assert mounts[x] in mounts; }
    }
  }

  method ValidateFileMounts(mounts: seq<FileMount>) returns (errors: seq<FieldError>)
    ensures errors == [] <==> ValidMounts(mounts)
    ensures forall e :: e in errors <==> exists i :: 0 <= i < |mounts| && MountsFault(mounts, i, e)
  {
    errors := [];
    var seen: map<string, nat> := map[];
    for i := 0 to |mounts|
      invariant errors == [] <==> ValidMounts(mounts[..i])
      invariant seen.Keys == MountPathsBefore(mounts[..i])
      invariant forall e :: e in errors <==> exists k :: 0 <= k < i && MountsFault(mounts, k, e)
    {
      hide ValidMounts, ValidTarget, ValidItems, MountPathsBefore, ItemsFault, MountFault;
      ghost var before := mounts[..i];
      assert mounts[..i + 1] == before + [mounts[i]];
      CollectMountStep(before, mounts[i]);
      var mountErrors, paths := CollectOneMount(i, mounts[i], seen);
      assert forall e :: e in mountErrors <==> MountsFault(mounts, i, e);
      hide MountsFault;
      FaultsNext(mounts, i, errors, mountErrors);
      errors, seen := errors + mountErrors, paths;
    }
    assert mounts[..|mounts|] == mounts;
  }

  lemma FaultsNext(mounts: seq<FileMount>, i: nat, errors: seq<FieldError>, more: seq<FieldError>)
    requires i < |mounts| && forall e :: e in errors <==> exists k :: 0 <= k < i && MountsFault(mounts, k, e)
    requires forall e :: e in more <==> MountsFault(mounts, i, e)
    ensures forall e :: e in errors + more <==> exists k :: 0 <= k < i + 1 && MountsFault(mounts, k, e)
  {
    hide MountsFault;
  }
}
