/** The small-dataset GPU policy: `.train(data=...)` calls of a submitted YOLO kernel are routed through a guard
    that may reduce the requested devices to the first one. */
module GpuPolicy {
  import opened Options
  import opened PythonAst
  import KaggleRefs

  const HELPER := "_relay_yolo_train"

  // ---- the rewrite ----

  predicate IsTrain(func: Tree, keywords: seq<Keyword>) {
    func.Attribute? && func.attr == "train" && exists i :: 0 <= i < |keywords| && keywords[i].arg == Some("data")
  }

  /** Depth first, like a node transformer: the parts of a call are rewritten before the call itself is looked at. */
  function Transform(t: Tree): Tree {
    match t
    case Name(_) => t
    case Text(_) => t
    case Attribute(v, a) => Attribute(Transform(v), a)
    case Call(f, args, kws) =>
      var f' := Transform(f);
      var args' := seq(|args|, i requires 0 <= i < |args| => Transform(args[i]));
      var kws' := seq(|kws|, i requires 0 <= i < |kws| => Keyword(kws[i].arg, Transform(kws[i].value)));
      if IsTrain(f', kws') then Call(Name(HELPER), [f'] + args', kws') else Call(f', args', kws')
    case Assign(ts, v) =>
      Assign(seq(|ts|, i requires 0 <= i < |ts| => if ts[i].Into? then Into(Transform(ts[i].place)) else ts[i]), Transform(v))
    case ExprStmt(e) => ExprStmt(Transform(e))
    case ImportFrom(_, _, _) => t
    case Block(items) => Block(seq(|items|, i requires 0 <= i < |items| => Transform(items[i])))
    case Node(kind, ch) => Node(kind, seq(|ch|, i requires 0 <= i < |ch| => Transform(ch[i])))
  }

  /** A call is routed through the guard exactly when it calls an attribute named train with a keyword data: the train
      function becomes the first argument, and nothing else of the call changes but its rewritten parts. */
  lemma TrainCallsRouted(f: Tree, args: seq<Tree>, kws: seq<Keyword>)
    ensures var r, routed := Transform(Call(f, args, kws)), f.Attribute? && f.attr == "train" && exists k :: 0 <= k < |kws| && kws[k].arg == Some("data");
      && r.Call?
      && |r.keywords| == |kws| && (forall i :: 0 <= i < |kws| ==> r.keywords[i].arg == kws[i].arg && r.keywords[i].value == Transform(kws[i].value))
      && (routed ==> r.func == Name("_relay_yolo_train") && |r.args| == 1 + |args| && r.args[0] == Transform(f) && forall i :: 0 <= i < |args| ==> r.args[i + 1] == Transform(args[i]))
      && (!routed ==> r.func == Transform(f) && |r.args| == |args| && forall i :: 0 <= i < |args| ==> r.args[i] == Transform(args[i]))
  {
    hide Transform;
    TransformedCall(f, args, kws);
  }

  function TransformAll(body: seq<Tree>): seq<Tree> {
    seq(|body|, i requires 0 <= i < |body| => Transform(body[i]))
  }

  function Rewrite(body: seq<Tree>, prefix: seq<Tree>): seq<Tree> {
    Splice(TransformAll(Without(body, prefix)), prefix)
  }

  method RewritePython(body: seq<Tree>, prefix: seq<Tree>, withPrefix: bool) returns (r: seq<Tree>)
    ensures r == if withPrefix then Rewrite(body, prefix) else TransformAll(body)
  {
    var rest := body;
    if withPrefix {
      rest := WithoutLoop(body, prefix);
    }
    r := TransformAll(rest);
    if withPrefix {
      r := SpliceLoop(r, prefix);
    }
  }

  // ---- idempotence ----

  /** No call of the guard anywhere in the tree. */
  predicate HelperFree(t: Tree) {
    match t
    case Name(_) => true
    case Text(_) => true
    case Attribute(v, _) => HelperFree(v)
    case Call(f, args, kws) =>
      && f != Name(HELPER) && HelperFree(f) && (forall i :: 0 <= i < |args| ==> HelperFree(args[i]))
      && (forall i :: 0 <= i < |kws| ==> HelperFree(kws[i].value))
    case Assign(ts, v) => HelperFree(v) && forall i :: 0 <= i < |ts| && ts[i].Into? ==> HelperFree(ts[i].place)
    case ExprStmt(e) => HelperFree(e)
    case ImportFrom(_, _, _) => true
    case Block(items) => forall i :: 0 <= i < |items| ==> HelperFree(items[i])
    case Node(_, ch) => forall i :: 0 <= i < |ch| ==> HelperFree(ch[i])
  }

  /** Rewriting a rewritten tree changes nothing, however deeply train calls are nested. */
  lemma {:induction false} TransformTwice(t: Tree)
    ensures Transform(Transform(t)) == Transform(t)
  {
    match t {
      case Name(_) =>
      case Text(_) =>
      case Attribute(v, _) => TransformTwice(v);
      case Call(f, args, kws) => TransformTwiceCall(f, args, kws);
      case Assign(ts, v) =>
        TransformTwice(v);
        forall i | 0 <= i < |ts| && ts[i].Into? ensures Transform(Transform(ts[i].place)) == Transform(ts[i].place) { TransformTwice(ts[i].place); }
        assert Transform(Transform(t)).targets == Transform(t).targets;
      case ExprStmt(e) => TransformTwice(e);
      case ImportFrom(_, _, _) =>
      case Block(items) =>
        forall i | 0 <= i < |items| ensures Transform(Transform(items[i])) == Transform(items[i]) { TransformTwice(items[i]); }
        assert Transform(Transform(t)).items == Transform(t).items;
      case Node(_, ch) =>
        forall i | 0 <= i < |ch| ensures Transform(Transform(ch[i])) == Transform(ch[i]) { TransformTwice(ch[i]); }
        assert Transform(Transform(t)).children == Transform(t).children;
    }
  }

  lemma {:induction false} TransformTwiceCall(f: Tree, args: seq<Tree>, kws: seq<Keyword>)
    ensures Transform(Transform(Call(f, args, kws))) == Transform(Call(f, args, kws))
    decreases Call(f, args, kws), 0
  {
    var t := Call(f, args, kws);
    TransformTwice(f);
    forall i | 0 <= i < |args| ensures Transform(Transform(args[i])) == Transform(args[i]) { TransformTwice(args[i]); }
    forall i | 0 <= i < |kws| ensures Transform(Transform(kws[i].value)) == Transform(kws[i].value) { TransformTwice(kws[i].value); }
    var once := Transform(t);
    forall i | 0 <= i < |once.args| ensures Transform(once.args[i]) == once.args[i] {
      if IsTrain(Transform(f), once.keywords) && i > 0 { assert once.args[i] == Transform(args[i - 1]); }
    }
    FixedCall(once);
  }

  lemma FixedCall(c: Tree)
    requires c.Call? && !IsTrain(c.func, c.keywords) && Transform(c.func) == c.func
    requires forall i :: 0 <= i < |c.args| ==> Transform(c.args[i]) == c.args[i]
    requires forall i :: 0 <= i < |c.keywords| ==> Transform(c.keywords[i].value) == c.keywords[i].value
    ensures Transform(c) == c
  {
    assert seq(|c.args|, i requires 0 <= i < |c.args| => Transform(c.args[i])) == c.args;
    assert seq(|c.keywords|, i requires 0 <= i < |c.keywords| => Keyword(c.keywords[i].arg, Transform(c.keywords[i].value))) == c.keywords;
  }

  lemma NotTrain(f: Tree, args: seq<Tree>, kws: seq<Keyword>)
    requires HelperFree(Transform(Call(f, args, kws)))
    ensures var u := Transform(Call(f, args, kws));
      u.Call? && u.func == Transform(f) && |u.args| == |args| && |u.keywords| == |kws|
      && (forall i :: 0 <= i < |args| ==> u.args[i] == Transform(args[i]))
      && (forall i :: 0 <= i < |kws| ==> u.keywords[i] == Keyword(kws[i].arg, Transform(kws[i].value)))
      && HelperFree(u.func)
  {
    var u := Transform(Call(f, args, kws));
    assert u.Call?;
    assert u.func != Name(HELPER);
  }

  /** Only the rewrite introduces guard calls: a result without any was not changed. */
  lemma {:induction false} UnchangedIfHelperFree(t: Tree)
    requires HelperFree(Transform(t))
    ensures Transform(t) == t
  {
    match t {
      case Name(_) =>
      case Text(_) =>
      case Attribute(v, _) => UnchangedIfHelperFree(v);
      case Call(f, args, kws) =>
        var u := Transform(t);
        NotTrain(f, args, kws);
        UnchangedIfHelperFree(f);
        forall i | 0 <= i < |args| ensures Transform(args[i]) == args[i] { assert HelperFree(u.args[i]); UnchangedIfHelperFree(args[i]); }
        forall i | 0 <= i < |kws| ensures Transform(kws[i].value) == kws[i].value {
          assert HelperFree(u.keywords[i].value);
          UnchangedIfHelperFree(kws[i].value);
        }
        assert u.args == args && u.keywords == kws;
      case Assign(ts, v) =>
        var u := Transform(t);
        UnchangedIfHelperFree(v);
        forall i | 0 <= i < |ts| ensures u.targets[i] == ts[i] {
          if ts[i].Into? { assert HelperFree(u.targets[i].place); UnchangedIfHelperFree(ts[i].place); }
        }
        assert u.targets == ts;
      case ExprStmt(e) => UnchangedIfHelperFree(e);
      case ImportFrom(_, _, _) =>
      case Block(items) =>
        forall i | 0 <= i < |items| ensures Transform(items[i]) == items[i] { assert HelperFree(Transform(t).items[i]); UnchangedIfHelperFree(items[i]); }
        assert Transform(t).items == items;
      case Node(_, ch) =>
        forall i | 0 <= i < |ch| ensures Transform(ch[i]) == ch[i] { assert HelperFree(Transform(t).children[i]); UnchangedIfHelperFree(ch[i]); }
        assert Transform(t).children == ch;
    }
  }

  lemma NeverOwn(t: Tree, prefix: seq<Tree>)
    requires t !in prefix && forall i :: 0 <= i < |prefix| ==> HelperFree(prefix[i])
    ensures Transform(t) !in prefix
  {
    if HelperFree(Transform(t)) { UnchangedIfHelperFree(t); }
  }

  /** Applying the policy to an already prepared module gives the same module, for every module and every guard text
      that does not itself call the guard. */
  lemma RewriteTwice(body: seq<Tree>, prefix: seq<Tree>)
    requires forall i :: 0 <= i < |prefix| ==> HelperFree(prefix[i])
    ensures Rewrite(Rewrite(body, prefix), prefix) == Rewrite(body, prefix)
  {
    hide Splice;
    var rest := Without(body, prefix);
    var once := TransformAll(rest);
    forall i | 0 <= i < |once| ensures once[i] !in prefix && Transform(once[i]) == once[i] {
      TransformTwice(rest[i]);
      WithoutFrom(body, prefix);
      assert rest[i] in rest;
      NeverOwn(rest[i], prefix);
    }
    WithoutSplice(once, prefix);
    WithoutNone(once, prefix);
    assert TransformAll(once) == once;
  }

  // ---- the guard itself ----

  datatype Device = Words(text: string) | Listed(items: seq<string>) | Plain(text: string)   // str, tuple or list, any other object

  function Parts(s: string): (r: seq<string>)
    decreases |s|
  {
    var i := Comma(s, 0);
    if i == |s| then [s] else [s[..i]] + Parts(s[i + 1..])
  }

  function Comma(s: string, from: nat): (i: nat)
    requires from <= |s|
    ensures from <= i <= |s|
    decreases |s| - from
  {
    if from == |s| || s[from] == ',' then from else Comma(s, from + 1)
  }

  function Kept(parts: seq<string>): seq<string> {
    if parts == [] then []
    else
      var last := KaggleRefs.Strip(parts[|parts| - 1]);
      Kept(parts[..|parts| - 1]) + if last == "" then [] else [last]
  }

  predicate NotCuda(s: string) {
    KaggleRefs.Lower(KaggleRefs.Strip(s)) == "cpu" || KaggleRefs.Lower(KaggleRefs.Strip(s)) == "mps"
  }

  predicate Defaulted(s: string) {
    KaggleRefs.Strip(s) == "" || KaggleRefs.Lower(KaggleRefs.Strip(s)) == "auto"
  }

  /** The devices of a request; none for cpu, mps, auto, None and a missing argument. */
  function Devices(requested: Option<Device>): seq<string> {
    match requested
    case None => []
    case Some(Listed(items)) => items
    case Some(Words(s)) => if NotCuda(s) || Defaulted(s) then [] else Kept(Parts(s))
    case Some(Plain(s)) => if Defaulted(s) then [] else Kept(Parts(s))
  }

  predicate Detection(task: string) {
    task in {"detect", "segment", "pose", "obb"}
  }

  /** How the guard sees keyword values: a device request (None: Python's None), and a string as a value. */
  datatype Values<!V> = Values(device: V -> Option<Device>, words: string -> V)

  function Requested<V>(v: Values<V>, kwargs: map<string, V>): Option<Device> {
    if "device" in kwargs then v.device(kwargs["device"]) else None
  }

  /** Only a detection task on several devices is checked against the data. */
  predicate Consults(requested: Option<Device>, task: string) {
    |Devices(requested)| >= 2 && Detection(task)
  }

  /** Valid samples per split; None: the validator of the data or of a split raised. */
  type Samples = Option<(nat, nat)>

  predicate TooFew(devices: seq<string>, counts: (nat, nat)) {
    counts.0 < |devices| || counts.1 < |devices|
  }

  /** The keyword arguments with which the original train function is called; None where it is not called because the
      validator raised. */
  function Passed<V>(v: Values<V>, kwargs: map<string, V>, task: string, samples: Samples): Option<map<string, V>> {
    var devices := Devices(Requested(v, kwargs));
    if |devices| < 2 || !Detection(task) then Some(kwargs)
    else if samples.None? then None
    else if TooFew(devices, samples.value) then Some(kwargs["device" := v.words(devices[0])])
    else Some(kwargs)
  }

  /** The two validations in their order: the data description, then each split. */
  function Validated(described: bool, split: string -> Option<nat>): Samples {
    if described && split("train").Some? && split("val").Some? then Some((split("train").value, split("val").value)) else None
  }

  /** The inserted helper: the keyword arguments it calls train with, or None when a validator raised.
      described: check_det_dataset returned; split: the samples that YOLODataset accepts, None when it raised. */
  method RelayYoloTrain<V>(v: Values<V>, kwargs0: map<string, V>, task: string, described: bool, split: string -> Option<nat>)
    returns (passed: Option<map<string, V>>)
    ensures passed == Passed(v, kwargs0, task, Validated(described, split))
  {
    hide NotCuda, Defaulted, Kept, Parts, Detection;
    var kwargs := kwargs0;
    var requested := if "device" in kwargs then v.device(kwargs["device"]) else None;
    if requested.None? || (requested.value.Words? && NotCuda(requested.value.text)) {
      return Some(kwargs);
    }
    var devices: seq<string>;
    if requested.value.Listed? {
      devices := requested.value.items;
    } else if Defaulted(requested.value.text) {
      return Some(kwargs);
    } else {
      devices := SplitDevices(requested.value.text);
    }
    if |devices| < 2 || !Detection(task) {
      return Some(kwargs);
    }
    if !described {
      return None;
    }
    var counts := CountSamples(["train", "val"], split);
    if counts.None? {
      return None;
    }
    if counts.value[0] < |devices| || counts.value[1] < |devices| {
      kwargs := kwargs["device" := v.words(devices[0])];
    }
    return Some(kwargs);
  }

  /** One split after the other; the first that raises ends it. */
  method CountSamples(splits: seq<string>, split: string -> Option<nat>) returns (counts: Option<seq<nat>>)
    ensures counts.None? <==> exists i :: 0 <= i < |splits| && split(splits[i]).None?
    ensures counts.Some? ==> |counts.value| == |splits|
    ensures counts.Some? ==> forall i :: 0 <= i < |splits| ==> split(splits[i]) == Some(counts.value[i])
  {
    var found: seq<nat> := [];
    for i := 0 to |splits|
      invariant |found| == i && forall k :: 0 <= k < i ==> split(splits[k]) == Some(found[k])
    {
      var n := split(splits[i]);
      if n.None? {
        return None;
      }
      found := found + [n.value];
    }
    return Some(found);
  }

  method SplitDevices(s: string) returns (devices: seq<string>)
    ensures devices == Kept(Parts(s))
  {
    var parts := Parts(s);
    devices := [];
    for i := 0 to |parts|
      invariant devices == Kept(parts[..i])
    {
      assert parts[..i + 1][..i] == parts[..i];
      var part := KaggleRefs.Strip(parts[i]);
      if part != "" {
        devices := devices + [part];
      }
    }
    assert parts[..|parts|] == parts;
  }

  /** The guard never touches another argument, never adds one, and replaces the requested device exactly when a
      detection task asks for several devices and a split has fewer samples than that: by the first of them. */
  lemma GuardNarrows<V>(v: Values<V>, kwargs: map<string, V>, task: string, samples: Samples)
    requires forall text :: v.device(v.words(text)) == Some(Words(text))
    ensures var r, devices := Passed(v, kwargs, task, samples), Devices(if "device" in kwargs then v.device(kwargs["device"]) else None);
      var asks := |devices| >= 2 && (task == "detect" || task == "segment" || task == "pose" || task == "obb");
      && (r.None? <==> asks && samples.None?)
      && (r.Some? ==> r.value.Keys == kwargs.Keys && forall k :: k in kwargs && k != "device" ==> r.value[k] == kwargs[k])
      && (r.Some? && r.value != kwargs <==> asks && samples.Some? && (samples.value.0 < |devices| || samples.value.1 < |devices|))
      && (r.Some? && r.value != kwargs ==> Requested(v, r.value) == Some(Words(devices[0])))
  {
    hide Devices;
    var devices := Devices(Requested(v, kwargs));
    if |devices| >= 2 {
      assert "device" in kwargs by { NoRequest(); }
      SeveralAreNotFirst(Requested(v, kwargs));
      assert v.device(v.words(devices[0])) == Some(Words(devices[0]));
      assert kwargs["device" := v.words(devices[0])]["device"] == v.words(devices[0]);
    }
  }

  lemma NoRequest()
    ensures Devices(None) == []
  {
  }

  /** A request of several devices is not the request of its first one. */
  lemma SeveralAreNotFirst(requested: Option<Device>)
    ensures var devices := Devices(requested); |devices| >= 2 ==> requested != Some(Words(devices[0]))
  {
    var devices := Devices(requested);
    if |devices| >= 2 && requested.value.Words? {
      PartsBound(requested.value.text);
      KeptShort(Parts(requested.value.text), |requested.value.text|);
    }
  }

  lemma {:induction false} PartsBound(s: string)
    ensures |Parts(s)| > 1 ==> forall i :: 0 <= i < |Parts(s)| ==> |Parts(s)[i]| < |s|
    ensures |Parts(s)| >= 1 && |Parts(s)[0]| <= |s|
    decreases |s|
  {
    var i := Comma(s, 0);
    if i < |s| { PartsBound(s[i + 1..]); }
  }

  lemma {:induction false} KeptShort(parts: seq<string>, n: nat)
    requires |parts| > 1 ==> forall i :: 0 <= i < |parts| ==> |parts[i]| < n
    ensures |Kept(parts)| <= |parts|
    ensures |parts| > 1 ==> forall i :: 0 <= i < |Kept(parts)| ==> |Kept(parts)[i]| < n
  {
    if |parts| > 1 {
      KeptBelow(parts, n);
    }
    KeptFew(parts);
  }

  lemma {:induction false} KeptFew(parts: seq<string>)
    ensures |Kept(parts)| <= |parts|
  {
    if parts != [] { KeptFew(parts[..|parts| - 1]); }
  }

  lemma {:induction false} KeptBelow(parts: seq<string>, n: nat)
    requires forall i :: 0 <= i < |parts| ==> |parts[i]| < n
    ensures forall i :: 0 <= i < |Kept(parts)| ==> |Kept(parts)[i]| < n
  {
    if parts != [] {
      KeptBelow(parts[..|parts| - 1], n);
      KaggleRefs.StripLeftDrops(parts[|parts| - 1]);
      KaggleRefs.StripRightDrops(KaggleRefs.StripLeft(parts[|parts| - 1]));
    }
  }

  /** A device name as it is listed: no comma, no blank at either end. */
  predicate DeviceName(s: string) {
    KaggleRefs.Solid(s) && ',' !in s
  }

  function Joined(names: seq<string>): string {
    if names == [] then "" else if |names| == 1 then names[0] else names[0] + "," + Joined(names[1..])
  }

  /** Reading inverts listing: several device names joined by commas are requested as exactly these, in their order. */
  lemma ListedDevices(names: seq<string>)
    requires |names| >= 2 && forall i :: 0 <= i < |names| ==> DeviceName(names[i])
    ensures Devices(Some(Words(Joined(names)))) == names && Devices(Some(Plain(Joined(names)))) == names
  {
    hide Kept, Parts, KaggleRefs.Strip, KaggleRefs.Lower, DeviceName;
    var s := Joined(names);
    PartsJoined(names);
    KeptNames(names);
    JoinedSolid(names);
    KaggleRefs.StripSolid(s);
    NamesSeveral(s, |names[0]|);
  }

  /** A text with a comma is none of the words that ask for no device. */
  lemma NamesSeveral(s: string, k: nat)
    requires k < |s| && s[k] == ','
    ensures s != "" && KaggleRefs.Lower(s) != "cpu" && KaggleRefs.Lower(s) != "mps" && KaggleRefs.Lower(s) != "auto"
  {
    assert KaggleRefs.Lower(s)[k] == ',';
    assert forall i :: 0 <= i < 3 ==> "cpu"[i] != ',' && "mps"[i] != ',';
    assert forall i :: 0 <= i < 4 ==> "auto"[i] != ',';
  }

  lemma {:induction false} PartsJoined(names: seq<string>)
    requires names != [] && forall i :: 0 <= i < |names| ==> DeviceName(names[i])
    ensures Parts(Joined(names)) == names
  {
    hide KaggleRefs.Solid;
    var s, k := Joined(names), |names[0]|;
    CommaAt(s, 0, k);
    if |names| > 1 {
      PartsJoined(names[1..]);
      assert s[..k] == names[0] && s[k + 1..] == Joined(names[1..]);
      assert names == [names[0]] + names[1..];
    }
  }

  lemma {:induction false} CommaAt(s: string, from: nat, k: nat)
    requires from <= k <= |s| && (k < |s| ==> s[k] == ',') && forall i :: from <= i < k ==> s[i] != ','
    ensures Comma(s, from) == k
    decreases k - from
  {
    if from < k { CommaAt(s, from + 1, k); }
  }

  lemma {:induction false} KeptNames(names: seq<string>)
    requires forall i :: 0 <= i < |names| ==> DeviceName(names[i])
    ensures Kept(names) == names
  {
    hide KaggleRefs.Strip;
    if names != [] {
      KeptNames(names[..|names| - 1]);
      KaggleRefs.StripSolid(names[|names| - 1]);
      assert names == names[..|names| - 1] + [names[|names| - 1]];
    }
  }

  lemma {:induction false} JoinedSolid(names: seq<string>)
    requires names != [] && forall i :: 0 <= i < |names| ==> DeviceName(names[i])
    ensures KaggleRefs.Solid(Joined(names))
  {
    if |names| > 1 { JoinedSolid(names[1..]); }
  }

  // ---- meaning ----

  datatype Label = Label(kind: string, names: seq<Option<string>>)
  datatype Arg<V> = Arg(name: Option<string>, value: V)

  /** A meaning of Python: worlds, values, name lookup, attribute access, calls, and for every other construct a
      function of the meanings of its parts (so conditionals, loops, lambdas and definitions may run them never,
      often or later); and the parts of the world that the inserted helper uses. */
  datatype Python<!W, !V> = Python(
    name: (W, string) -> (W, V),
    text: string -> V,
    attr: (W, V, string) -> (W, V),
    call: (W, V, seq<V>, seq<Arg<V>>) -> (W, V),
    node: (Label, seq<W -> (W, V)>, W) -> (W, V),
    imported: (W, Tree) -> (W, V),
    values: Values<V>,
    bound: seq<Arg<V>> -> Option<map<string, V>>,             // keywords as one dictionary; None: they cannot be combined
    spread: map<string, V> -> seq<Arg<V>>,                    // a dictionary passed on as **kwargs
    task: (W, V) -> string,                                   // the task of the model that a train method belongs to
    validate: (W, V, map<string, V>) -> (W, Samples, V),      // the validators' effect, the samples, the error they raise
    typeError: V,                                             // what a call with unusable arguments raises
    helper: V)

  /** A construct means the same when its parts mean the same. */
  ghost predicate Compositional<W(!new), V(!new)>(p: Python<W, V>) {
    forall tag: Label, ds: seq<W -> (W, V)>, es: seq<W -> (W, V)>, w: W ::
      |ds| == |es| && (forall i, v :: 0 <= i < |ds| ==> ds[i](v) == es[i](v)) ==> p.node(tag, ds, w) == p.node(tag, es, w)
  }

  /** The helper's name denotes the helper, and calling it runs the guard in front of its first argument. */
  ghost predicate HelperBound<W(!new), V(!new)>(p: Python<W, V>) {
    && (forall w :: p.name(w, HELPER) == (w, p.helper))
    && (forall w: W, f: V, args: seq<V>, kws: seq<Arg<V>> :: p.call(w, p.helper, [f] + args, kws) == Guarded(p, w, f, args, kws))
  }

  /** The helper's own first parameter is called train: a keyword of that name makes two values for it. */
  predicate TakesTrain<W, V>(p: Python<W, V>, kws: seq<Arg<V>>) {
    p.bound(kws).Some? && "train" in p.bound(kws).value
  }

  /** The helper in front of a train function. */
  function Guarded<W, V>(p: Python<W, V>, w: W, f: V, args: seq<V>, kws: seq<Arg<V>>): (W, V) {
    if p.bound(kws).None? || TakesTrain(p, kws) then (w, p.typeError)
    else
      var kwargs, task := p.bound(kws).value, p.task(w, f);
      if !Consults(Requested(p.values, kwargs), task) then p.call(w, f, args, p.spread(kwargs))
      else
        var (w', samples, error) := p.validate(w, f, kwargs);
        match Passed(p.values, kwargs, task, samples)
        case None => (w', error)
        case Some(passed) => p.call(w', f, args, p.spread(passed))
  }

  /** Evaluation.  policy = true is the original module with every train call passing through the guard. */
  function Eval<W, V>(p: Python<W, V>, policy: bool, t: Tree, w: W): (W, V)
    decreases t, 1, 0
  {
    match t
    case Name(id) => p.name(w, id)
    case Text(s) => (w, p.text(s))
    case Attribute(v, a) => var (w1, x) := Eval(p, policy, v, w); p.attr(w1, x, a)
    case Call(f, args, kws) =>
      var (w1, fv) := Eval(p, policy, f, w);
      var (w2, vs) := EvalArgs(p, policy, args, |args|, w1);
      var (w3, ks) := EvalKeywords(p, policy, t, |kws|, w2);
      if policy && IsTrain(f, kws) then Guarded(p, w3, fv, vs, ks) else p.call(w3, fv, vs, ks)
    case Assign(ts, v) =>
      p.node(Label("Assign", seq(|ts|, i requires 0 <= i < |ts| => if ts[i].To? then Some(ts[i].id) else None)),
             [(u: W) => Eval(p, policy, v, u)] +
             seq(|ts|, i requires 0 <= i < |ts| => (u: W) => if ts[i].Into? then Eval(p, policy, ts[i].place, u) else (u, p.text(""))), w)
    case ExprStmt(e) => Eval(p, policy, e, w)
    case ImportFrom(_, _, _) => p.imported(w, t)
    case Block(items) =>
      p.node(Label("Block", []), seq(|items|, i requires 0 <= i < |items| => (u: W) => Eval(p, policy, items[i], u)), w)
    case Node(kind, ch) =>
      p.node(Label(kind, []), seq(|ch|, i requires 0 <= i < |ch| => (u: W) => Eval(p, policy, ch[i], u)), w)
  }

  /** The first n arguments, left to right. */
  function EvalArgs<W, V>(p: Python<W, V>, policy: bool, ts: seq<Tree>, n: nat, w: W): (W, seq<V>)
    requires n <= |ts|
    decreases ts, n
  {
    if n == 0 then (w, [])
    else
      var (w1, vs) := EvalArgs(p, policy, ts, n - 1, w);
      var (w2, v) := Eval(p, policy, ts[n - 1], w1);
      (w2, vs + [v])
  }

  /** The first n keyword arguments of a call. */
  function EvalKeywords<W, V>(p: Python<W, V>, policy: bool, c: Tree, n: nat, w: W): (W, seq<Arg<V>>)
    requires c.Call? && n <= |c.keywords|
    decreases c, 0, n
  {
    if n == 0 then (w, [])
    else
      var (w1, vs) := EvalKeywords(p, policy, c, n - 1, w);
      var (w2, v) := Eval(p, policy, c.keywords[n - 1].value, w1);
      (w2, vs + [Arg(c.keywords[n - 1].arg, v)])
  }

  /** The meaning is preserved: the rewritten tree does, in every world, exactly what the original does with the guard
      placed in front of each train call, in the same order of evaluation. */
  lemma {:induction false} TransformMeaning<W(!new), V(!new)>(p: Python<W, V>, t: Tree, w: W)
    requires Compositional(p) && HelperBound(p)
    ensures Eval(p, false, Transform(t), w) == Eval(p, true, t, w)
    decreases t, 2
  {
    match t {
      case Name(_) =>
      case Text(_) =>
      case Attribute(v, _) => TransformMeaning(p, v, w);
      case Call(f, args, kws) => CallMeaning(p, f, args, kws, w);
      case Assign(ts, v) => AssignMeaning(p, ts, v, w);
      case ExprStmt(e) => TransformMeaning(p, e, w);
      case ImportFrom(_, _, _) =>
      case Block(items) => PartsMeaning(p, Label("Block", []), items, w);
      case Node(kind, ch) => PartsMeaning(p, Label(kind, []), ch, w);
    }
  }

  lemma {:induction false} PartsMeaning<W(!new), V(!new)>(p: Python<W, V>, tag: Label, ts: seq<Tree>, w: W)
    requires Compositional(p) && HelperBound(p)
    ensures var us := seq(|ts|, i requires 0 <= i < |ts| => Transform(ts[i]));
      p.node(tag, seq(|us|, i requires 0 <= i < |us| => (u: W) => Eval(p, false, us[i], u)), w)
      == p.node(tag, seq(|ts|, i requires 0 <= i < |ts| => (u: W) => Eval(p, true, ts[i], u)), w)
    decreases ts, 0
  {
    var us := seq(|ts|, i requires 0 <= i < |ts| => Transform(ts[i]));
    var ds: seq<W -> (W, V)> := seq(|us|, i requires 0 <= i < |us| => (u: W) => Eval(p, false, us[i], u));
    var es: seq<W -> (W, V)> := seq(|ts|, i requires 0 <= i < |ts| => (u: W) => Eval(p, true, ts[i], u));
    forall i, v | 0 <= i < |ds| ensures ds[i](v) == es[i](v) {
      TransformMeaning(p, ts[i], v);
    }
  }

  lemma {:induction false} AssignMeaning<W(!new), V(!new)>(p: Python<W, V>, ts: seq<Target>, v: Tree, w: W)
    requires Compositional(p) && HelperBound(p)
    ensures Eval(p, false, Transform(Assign(ts, v)), w) == Eval(p, true, Assign(ts, v), w)
    decreases Assign(ts, v), 0
  {
    hide Guarded, IsTrain, HelperBound, Transform;
    TransformedAssign(ts, v);
    var us := seq(|ts|, i requires 0 <= i < |ts| => if ts[i].Into? then Into(Transform(ts[i].place)) else ts[i]);
    var v' := Transform(v);
    var ds: seq<W -> (W, V)> := [(u: W) => Eval(p, false, v', u)] +
      seq(|us|, i requires 0 <= i < |us| => (u: W) => if us[i].Into? then Eval(p, false, us[i].place, u) else (u, p.text("")));
    var es: seq<W -> (W, V)> := [(u: W) => Eval(p, true, v, u)] +
      seq(|ts|, i requires 0 <= i < |ts| => (u: W) => if ts[i].Into? then Eval(p, true, ts[i].place, u) else (u, p.text("")));
    forall i, x | 0 <= i < |ds| ensures ds[i](x) == es[i](x) {
      if i == 0 { TransformMeaning(p, v, x); }
      else if ts[i - 1].Into? { TransformMeaning(p, ts[i - 1].place, x); }
    }
    var names := seq(|ts|, i requires 0 <= i < |ts| => if ts[i].To? then Some(ts[i].id) else None);
    assert names == seq(|us|, i requires 0 <= i < |us| => if us[i].To? then Some(us[i].id) else None);
    assert p.node(Label("Assign", names), ds, w) == p.node(Label("Assign", names), es, w);
  }

  lemma TransformedAssign(ts: seq<Target>, v: Tree)
    ensures Transform(Assign(ts, v)) ==
            Assign(seq(|ts|, i requires 0 <= i < |ts| => if ts[i].Into? then Into(Transform(ts[i].place)) else ts[i]), Transform(v))
  {
  }

  lemma {:induction false} ArgsMeaning<W(!new), V(!new)>(p: Python<W, V>, ts: seq<Tree>, us: seq<Tree>, n: nat, w: W)
    requires Compositional(p) && HelperBound(p) && n <= |ts| == |us| && forall i :: 0 <= i < |ts| ==> us[i] == Transform(ts[i])
    ensures EvalArgs(p, false, us, n, w) == EvalArgs(p, true, ts, n, w)
    decreases ts, 0, n
  {
    if n > 0 {
      ArgsMeaning(p, ts, us, n - 1, w);
      TransformMeaning(p, ts[n - 1], EvalArgs(p, true, ts, n - 1, w).0);
    }
  }

  lemma {:induction false} KeywordsMeaning<W(!new), V(!new)>(p: Python<W, V>, c: Tree, d: Tree, n: nat, w: W)
    requires Compositional(p) && HelperBound(p) && c.Call? && d.Call? && n <= |c.keywords| == |d.keywords|
    requires forall i :: 0 <= i < |c.keywords| ==> d.keywords[i] == Keyword(c.keywords[i].arg, Transform(c.keywords[i].value))
    ensures EvalKeywords(p, false, d, n, w) == EvalKeywords(p, true, c, n, w)
    decreases c, 0, n
  {
    if n > 0 {
      KeywordsMeaning(p, c, d, n - 1, w);
      TransformMeaning(p, c.keywords[n - 1].value, EvalKeywords(p, true, c, n - 1, w).0);
    }
  }

  lemma {:induction false} KeywordsOnly<W(!new), V(!new)>(p: Python<W, V>, c: Tree, d: Tree, n: nat, w: W)
    requires c.Call? && d.Call? && c.keywords == d.keywords && n <= |c.keywords|
    ensures EvalKeywords(p, false, c, n, w) == EvalKeywords(p, false, d, n, w)
  {
    if n > 0 { KeywordsOnly(p, c, d, n - 1, w); }
  }

  /** A function moved in front of the arguments is evaluated first, as before. */
  lemma {:induction false} FirstArgument<W(!new), V(!new)>(p: Python<W, V>, f: Tree, args: seq<Tree>, n: nat, w: W)
    requires n <= |args|
    ensures var (w1, fv) := Eval(p, false, f, w);
      EvalArgs(p, false, [f] + args, n + 1, w) == (EvalArgs(p, false, args, n, w1).0, [fv] + EvalArgs(p, false, args, n, w1).1)
    decreases n
  {
    if n == 0 {
      assert EvalArgs(p, false, [f] + args, 0, w) == (w, []) && ([f] + args)[0] == f;
      assert [] + [Eval(p, false, f, w).1] == [Eval(p, false, f, w).1] + [];
    } else {
      FirstArgument(p, f, args, n - 1, w);
      assert ([f] + args)[n] == args[n - 1];
      var (w1, fv) := Eval(p, false, f, w);
      var (w2, vs) := EvalArgs(p, false, args, n - 1, w1);
      assert [fv] + (vs + [Eval(p, false, args[n - 1], w2).1]) == ([fv] + vs) + [Eval(p, false, args[n - 1], w2).1];
    }
  }

  lemma {:induction false} CallMeaning<W(!new), V(!new)>(p: Python<W, V>, f: Tree, args: seq<Tree>, kws: seq<Keyword>, w: W)
    requires Compositional(p) && HelperBound(p)
    ensures Eval(p, false, Transform(Call(f, args, kws)), w) == Eval(p, true, Call(f, args, kws), w)
    decreases Call(f, args, kws), 1
  {
    hide Compositional, HelperBound, Eval, EvalArgs, EvalKeywords, Guarded, IsTrain, Transform;
    var t := Call(f, args, kws);
    var f' := Transform(f);
    var args' := seq(|args|, i requires 0 <= i < |args| => Transform(args[i]));
    var kws' := seq(|kws|, i requires 0 <= i < |kws| => Keyword(kws[i].arg, Transform(kws[i].value)));
    var plain := Call(f', args', kws');
    TransformMeaning(p, f, w);
    var (w1, fv) := Eval(p, true, f, w);
    ArgsMeaning(p, args, args', |args|, w1);
    var (w2, vs) := EvalArgs(p, true, args, |args|, w1);
    KeywordsMeaning(p, t, plain, |kws|, w2);
    var (w3, ks) := EvalKeywords(p, true, t, |kws|, w2);
    TransformedCall(f, args, kws);
    if IsTrain(f, kws) {
      var routed := Call(Name(HELPER), [f'] + args', kws');
      FirstArgument(p, f', args', |args'|, w);
      KeywordsOnly(p, routed, plain, |kws|, w2);
      EvalCall(p, false, routed, w);
      assert EvalArgs(p, false, [f'] + args', |args| + 1, w) == (w2, [fv] + vs);
      HelperCalled(p, w3, fv, vs, ks);
    } else {
      EvalCall(p, false, plain, w);
    }
    EvalCall(p, true, t, w);
  }

  lemma EvalCall<W(!new), V(!new)>(p: Python<W, V>, policy: bool, c: Tree, w: W)
    requires c.Call?
    ensures var (w1, fv) := Eval(p, policy, c.func, w);
      var (w2, vs) := EvalArgs(p, policy, c.args, |c.args|, w1);
      var (w3, ks) := EvalKeywords(p, policy, c, |c.keywords|, w2);
      Eval(p, policy, c, w) == if policy && IsTrain(c.func, c.keywords) then Guarded(p, w3, fv, vs, ks) else p.call(w3, fv, vs, ks)
  {
  }

  lemma HelperCalled<W(!new), V(!new)>(p: Python<W, V>, w: W, f: V, args: seq<V>, kws: seq<Arg<V>>)
    requires HelperBound(p)
    ensures p.call(w, p.helper, [f] + args, kws) == Guarded(p, w, f, args, kws)
    ensures forall u :: Eval(p, false, Name(HELPER), u) == (u, p.helper)
  {
  }

  /** What the rewrite makes of a call. */
  lemma TransformedCall(f: Tree, args: seq<Tree>, kws: seq<Keyword>)
    ensures var f' := Transform(f);
      var args' := seq(|args|, i requires 0 <= i < |args| => Transform(args[i]));
      var kws' := seq(|kws|, i requires 0 <= i < |kws| => Keyword(kws[i].arg, Transform(kws[i].value)));
      && Transform(Call(f, args, kws)) == (if IsTrain(f, kws) then Call(Name(HELPER), [f'] + args', kws') else Call(f', args', kws'))
      && !IsTrain(Name(HELPER), kws')
  {
    TrainKept(f, kws, seq(|kws|, i requires 0 <= i < |kws| => Keyword(kws[i].arg, Transform(kws[i].value))));
  }

  lemma TrainKept(f: Tree, kws: seq<Keyword>, kws': seq<Keyword>)
    requires |kws'| == |kws| && forall i :: 0 <= i < |kws| ==> kws'[i].arg == kws[i].arg
    ensures IsTrain(Transform(f), kws') <==> IsTrain(f, kws)
  {
    if f.Call? {
      assert Transform(f).Call?;
    }
  }

  // ---- what a train call becomes ----

  /** Keywords that cannot be combined make any call raise; otherwise passing on the received dictionary is passing the
      keywords as they were written. */
  ghost predicate Spreads<W(!new), V(!new)>(p: Python<W, V>) {
    && (forall w: W, f: V, args: seq<V>, kws: seq<Arg<V>> :: p.bound(kws).None? ==> p.call(w, f, args, kws) == (w, p.typeError))
    && (forall w: W, f: V, args: seq<V>, kws: seq<Arg<V>> :: p.bound(kws).Some? ==>
          p.call(w, f, args, p.spread(p.bound(kws).value)) == p.call(w, f, args, kws))
  }

  /** With TransformMeaning: a train call of the rewritten module raises exactly when its keywords name train or a
      validator raises; otherwise it is the original call, in the world that the validators leave if they are asked, and
      its device becomes the first listed one exactly when a split is too small for the devices a detection task lists. */
  lemma TrainCallMeaning<W(!new), V(!new)>(p: Python<W, V>, w: W, f: V, args: seq<V>, kws: seq<Arg<V>>)
    requires Spreads(p)
    ensures var g := Guarded(p, w, f, args, kws);
      if p.bound(kws).None? then g == p.call(w, f, args, kws)
      else if TakesTrain(p, kws) then g == (w, p.typeError)
      else
        var kwargs := p.bound(kws).value;
        var requested := Requested(p.values, kwargs);
        if !Consults(requested, p.task(w, f)) then g == p.call(w, f, args, kws)
        else
          var (w', samples, error) := p.validate(w, f, kwargs);
          if samples.None? then g == (w', error)
          else if TooFew(Devices(requested), samples.value) then
            g == p.call(w', f, args, p.spread(kwargs["device" := p.values.words(Devices(requested)[0])]))
          else g == p.call(w', f, args, kws)
  {
    hide Devices, Detection;
    if p.bound(kws).Some? {
      var kwargs := p.bound(kws).value;
      assert p.call(w, f, args, p.spread(kwargs)) == p.call(w, f, args, kws);
      var (w', samples, error) := p.validate(w, f, kwargs);
      assert p.call(w', f, args, p.spread(kwargs)) == p.call(w', f, args, kws);
    }
  }

  /** Wherever the validators are asked they find enough samples and leave the world alone. */
  ghost predicate Plenty<W(!new), V(!new)>(p: Python<W, V>) {
    forall w: W, f: V, kwargs: map<string, V> :: Consults(Requested(p.values, kwargs), p.task(w, f)) ==>
      var (w', samples, error) := p.validate(w, f, kwargs);
      w' == w && samples.Some? && !TooFew(Devices(Requested(p.values, kwargs)), samples.value)
  }

  /** With enough samples the guard is noticed exactly by a train function that is given a keyword named train and would
      not itself refuse it. */
  lemma GuardNoticed<W(!new), V(!new)>(p: Python<W, V>, w: W, f: V, args: seq<V>, kws: seq<Arg<V>>)
    requires Spreads(p) && Plenty(p)
    ensures Guarded(p, w, f, args, kws) == p.call(w, f, args, kws) <==>
              (TakesTrain(p, kws) ==> p.call(w, f, args, kws) == (w, p.typeError))
  {
    hide Guarded, Devices, Detection, Spreads, TooFew, Consults, Requested;
    TrainCallMeaning(p, w, f, args, kws);
  }

  /** The operands with which a call is made in the original module. */
  function Operands<W, V>(p: Python<W, V>, c: Tree, w: W): (W, V, seq<V>, seq<Arg<V>>)
    requires c.Call?
  {
    var (w1, f) := Eval(p, false, c.func, w);
    var (w2, args) := EvalArgs(p, false, c.args, |c.args|, w1);
    var (w3, kws) := EvalKeywords(p, false, c, |c.keywords|, w2);
    (w3, f, args, kws)
  }

  /** The call is given no keyword named train, or refuses it itself. */
  ghost predicate Spared<W, V>(p: Python<W, V>, c: Tree, w: W)
    requires c.Call?
  {
    var (w3, f, args, kws) := Operands(p, c, w);
    TakesTrain(p, kws) ==> p.call(w3, f, args, kws) == (w3, p.typeError)
  }

  /** No keyword named train reaches a train call that would accept it, anywhere in the tree. */
  ghost predicate NoTrainReaches<W(!new), V(!new)>(p: Python<W, V>, t: Tree) {
    && (t.Call? && IsTrain(t.func, t.keywords) ==> forall w: W :: Spared(p, t, w))
    && match t
       case Attribute(v, _) => NoTrainReaches(p, v)
       case Call(f, args, kws) =>
         && NoTrainReaches(p, f) && (forall i :: 0 <= i < |args| ==> NoTrainReaches(p, args[i]))
         && (forall i :: 0 <= i < |kws| ==> NoTrainReaches(p, kws[i].value))
       case Assign(ts, v) => NoTrainReaches(p, v) && forall i :: 0 <= i < |ts| && ts[i].Into? ==> NoTrainReaches(p, ts[i].place)
       case ExprStmt(e) => NoTrainReaches(p, e)
       case Block(items) => forall i :: 0 <= i < |items| ==> NoTrainReaches(p, items[i])
       case Node(_, ch) => forall i :: 0 <= i < |ch| ==> NoTrainReaches(p, ch[i])
       case _ => true
  }

  /** The rewritten tree and each of its parts mean what the original ones mean, in every world. */
  ghost predicate SameMeaning<W(!new), V(!new)>(p: Python<W, V>, t: Tree)
    decreases t, 1
  {
    && (forall w: W :: Eval(p, false, Transform(t), w) == Eval(p, false, t, w))
    && PartsSame(p, t)
  }

  ghost predicate PartsSame<W(!new), V(!new)>(p: Python<W, V>, t: Tree)
    decreases t, 0
  {
    match t
    case Attribute(v, _) => SameMeaning(p, v)
    case Call(f, args, kws) =>
      && SameMeaning(p, f) && (forall i :: 0 <= i < |args| ==> SameMeaning(p, args[i]))
      && (forall i :: 0 <= i < |kws| ==> SameMeaning(p, kws[i].value))
    case Assign(ts, v) => SameMeaning(p, v) && forall i :: 0 <= i < |ts| && ts[i].Into? ==> SameMeaning(p, ts[i].place)
    case ExprStmt(e) => SameMeaning(p, e)
    case Block(items) => forall i :: 0 <= i < |items| ==> SameMeaning(p, items[i])
    case Node(_, ch) => forall i :: 0 <= i < |ch| ==> SameMeaning(p, ch[i])
    case _ => true
  }

  /** Where no split is too small, the rewritten module means what the original means, part by part, if and only if no
      keyword named train reaches a train call that would accept it. */
  lemma {:induction false} EnoughSamplesKeepMeaning<W(!new), V(!new)>(p: Python<W, V>, t: Tree)
    requires Compositional(p) && HelperBound(p) && Spreads(p) && Plenty(p)
    ensures SameMeaning(p, t) <==> NoTrainReaches(p, t)
    decreases t
  {
    hide Eval, Transform, Compositional, HelperBound, Spreads, Plenty, Spared, IsTrain, EvalArgs, EvalKeywords;
    match t {
      case Attribute(v, _) => EnoughSamplesKeepMeaning(p, v);
      case Call(f, args, kws) =>
        EnoughSamplesKeepMeaning(p, f);
        forall i | 0 <= i < |args| ensures SameMeaning(p, args[i]) <==> NoTrainReaches(p, args[i]) { EnoughSamplesKeepMeaning(p, args[i]); }
        forall i | 0 <= i < |kws| ensures SameMeaning(p, kws[i].value) <==> NoTrainReaches(p, kws[i].value) { EnoughSamplesKeepMeaning(p, kws[i].value); }
      case Assign(ts, v) =>
        EnoughSamplesKeepMeaning(p, v);
        forall i | 0 <= i < |ts| && ts[i].Into? ensures SameMeaning(p, ts[i].place) <==> NoTrainReaches(p, ts[i].place) { EnoughSamplesKeepMeaning(p, ts[i].place); }
      case ExprStmt(e) => EnoughSamplesKeepMeaning(p, e);
      case Block(items) =>
        forall i | 0 <= i < |items| ensures SameMeaning(p, items[i]) <==> NoTrainReaches(p, items[i]) { EnoughSamplesKeepMeaning(p, items[i]); }
      case Node(_, ch) =>
        forall i | 0 <= i < |ch| ensures SameMeaning(p, ch[i]) <==> NoTrainReaches(p, ch[i]) { EnoughSamplesKeepMeaning(p, ch[i]); }
      case _ =>
    }
    if PartsSame(p, t) {
      forall w: W ensures Eval(p, false, Transform(t), w) == Eval(p, false, t, w) <==> (t.Call? && IsTrain(t.func, t.keywords) ==> Spared(p, t, w)) {
        OwnMeaning(p, t, w);
      }
    }
  }

  /** Both evaluations of the original tree agree. */
  ghost predicate Agrees<W(!new), V(!new)>(p: Python<W, V>, t: Tree) {
    forall w: W :: Eval(p, true, t, w) == Eval(p, false, t, w)
  }

  lemma SameAgrees<W(!new), V(!new)>(p: Python<W, V>, t: Tree)
    requires Compositional(p) && HelperBound(p) && SameMeaning(p, t)
    ensures Agrees(p, t)
  {
    hide Eval, Transform, Compositional, HelperBound, PartsSame;
    forall w: W ensures Eval(p, true, t, w) == Eval(p, false, t, w) {
      TransformMeaning(p, t, w);
    }
  }

  /** What the rewrite of one construct changes when its parts kept their meaning. */
  lemma OwnMeaning<W(!new), V(!new)>(p: Python<W, V>, t: Tree, w: W)
    requires Compositional(p) && HelperBound(p) && Spreads(p) && Plenty(p) && PartsSame(p, t)
    ensures Eval(p, false, Transform(t), w) == Eval(p, false, t, w) <==> (t.Call? && IsTrain(t.func, t.keywords) ==> Spared(p, t, w))
  {
    hide Transform, Compositional, HelperBound, Spreads, Plenty, SameMeaning, Agrees, Spared, IsTrain, Eval;
    TransformMeaning(p, t, w);
    match t {
      case Attribute(v, _) => SameAgrees(p, v); AttributeAgrees(p, t, w);
      case Call(f, args, kws) =>
        SameAgrees(p, f);
        forall i | 0 <= i < |args| ensures Agrees(p, args[i]) { SameAgrees(p, args[i]); }
        forall i | 0 <= i < |kws| ensures Agrees(p, kws[i].value) { SameAgrees(p, kws[i].value); }
        CallAgrees(p, t, w);
      case Assign(ts, v) =>
        SameAgrees(p, v);
        forall i | 0 <= i < |ts| && ts[i].Into? ensures Agrees(p, ts[i].place) { SameAgrees(p, ts[i].place); }
        AssignAgrees(p, ts, v, w);
      case ExprStmt(e) => SameAgrees(p, e); AttributeAgrees(p, t, w);
      case Block(items) =>
        forall i | 0 <= i < |items| ensures Agrees(p, items[i]) { SameAgrees(p, items[i]); }
        BlockAgrees(p, t, w);
      case Node(_, ch) =>
        forall i | 0 <= i < |ch| ensures Agrees(p, ch[i]) { SameAgrees(p, ch[i]); }
        BlockAgrees(p, t, w);
      case _ => AttributeAgrees(p, t, w);
    }
  }

  lemma AttributeAgrees<W(!new), V(!new)>(p: Python<W, V>, t: Tree, w: W)
    requires t.Name? || t.Text? || t.ImportFrom? || (t.Attribute? && Agrees(p, t.value)) || (t.ExprStmt? && Agrees(p, t.expr))
    ensures Eval(p, true, t, w) == Eval(p, false, t, w)
  {
  }

  lemma BlockAgrees<W(!new), V(!new)>(p: Python<W, V>, t: Tree, w: W)
    requires Compositional(p) && ((t.Block? && forall i :: 0 <= i < |t.items| ==> Agrees(p, t.items[i])) || (t.Node? && forall i :: 0 <= i < |t.children| ==> Agrees(p, t.children[i])))
    ensures Eval(p, true, t, w) == Eval(p, false, t, w)
  {
    if t.Block? { PartsAgree(p, Label("Block", []), t.items, w); } else { PartsAgree(p, Label(t.kind, []), t.children, w); }
  }

  lemma PartsAgree<W(!new), V(!new)>(p: Python<W, V>, tag: Label, ts: seq<Tree>, w: W)
    requires Compositional(p) && forall i :: 0 <= i < |ts| ==> Agrees(p, ts[i])
    ensures p.node(tag, seq(|ts|, i requires 0 <= i < |ts| => (u: W) => Eval(p, true, ts[i], u)), w)
         == p.node(tag, seq(|ts|, i requires 0 <= i < |ts| => (u: W) => Eval(p, false, ts[i], u)), w)
  {
    hide Eval;
    var ds: seq<W -> (W, V)> := seq(|ts|, i requires 0 <= i < |ts| => (u: W) => Eval(p, true, ts[i], u));
    var es: seq<W -> (W, V)> := seq(|ts|, i requires 0 <= i < |ts| => (u: W) => Eval(p, false, ts[i], u));
    forall i, v | 0 <= i < |ds| ensures ds[i](v) == es[i](v) {
      assert Agrees(p, ts[i]);
    }
  }

  lemma AssignAgrees<W(!new), V(!new)>(p: Python<W, V>, ts: seq<Target>, v: Tree, w: W)
    requires Compositional(p) && Agrees(p, v) && forall i :: 0 <= i < |ts| && ts[i].Into? ==> Agrees(p, ts[i].place)
    ensures Eval(p, true, Assign(ts, v), w) == Eval(p, false, Assign(ts, v), w)
  {
    hide Guarded, IsTrain, Agrees;
    TargetsAgree(p, ts, v);
    var ds: seq<W -> (W, V)> := [(u: W) => Eval(p, true, v, u)] +
      seq(|ts|, i requires 0 <= i < |ts| => (u: W) => if ts[i].Into? then Eval(p, true, ts[i].place, u) else (u, p.text("")));
    var es: seq<W -> (W, V)> := [(u: W) => Eval(p, false, v, u)] +
      seq(|ts|, i requires 0 <= i < |ts| => (u: W) => if ts[i].Into? then Eval(p, false, ts[i].place, u) else (u, p.text("")));
    forall i, u | 0 <= i < |ds| ensures ds[i](u) == es[i](u) {
      if i > 0 && ts[i - 1].Into? { assert Eval(p, true, ts[i - 1].place, u) == Eval(p, false, ts[i - 1].place, u); }
    }
  }

  lemma TargetsAgree<W(!new), V(!new)>(p: Python<W, V>, ts: seq<Target>, v: Tree)
    requires Agrees(p, v) && forall i :: 0 <= i < |ts| && ts[i].Into? ==> Agrees(p, ts[i].place)
    ensures forall u: W :: Eval(p, true, v, u) == Eval(p, false, v, u)
    ensures forall i, u: W :: 0 <= i < |ts| && ts[i].Into? ==> Eval(p, true, ts[i].place, u) == Eval(p, false, ts[i].place, u)
  {
    hide Eval;
  }

  lemma {:induction false} ArgsAgree<W(!new), V(!new)>(p: Python<W, V>, ts: seq<Tree>, n: nat, w: W)
    requires n <= |ts| && forall i :: 0 <= i < |ts| ==> Agrees(p, ts[i])
    ensures EvalArgs(p, true, ts, n, w) == EvalArgs(p, false, ts, n, w)
  {
    hide Eval;
    if n > 0 {
      ArgsAgree(p, ts, n - 1, w);
      assert Agrees(p, ts[n - 1]);
    }
  }

  lemma {:induction false} KeywordsAgree<W(!new), V(!new)>(p: Python<W, V>, c: Tree, n: nat, w: W)
    requires c.Call? && n <= |c.keywords| && forall i :: 0 <= i < |c.keywords| ==> Agrees(p, c.keywords[i].value)
    ensures EvalKeywords(p, true, c, n, w) == EvalKeywords(p, false, c, n, w)
  {
    hide Eval;
    if n > 0 {
      KeywordsAgree(p, c, n - 1, w);
      assert Agrees(p, c.keywords[n - 1].value);
    }
  }

  lemma CallAgrees<W(!new), V(!new)>(p: Python<W, V>, c: Tree, w: W)
    requires Spreads(p) && Plenty(p) && c.Call? && Agrees(p, c.func)
    requires forall i :: 0 <= i < |c.args| ==> Agrees(p, c.args[i])
    requires forall i :: 0 <= i < |c.keywords| ==> Agrees(p, c.keywords[i].value)
    ensures Eval(p, true, c, w) == Eval(p, false, c, w) <==> (IsTrain(c.func, c.keywords) ==> Spared(p, c, w))
  {
    hide Eval, EvalArgs, EvalKeywords, Guarded, IsTrain, Spreads, Plenty, TakesTrain;
    var (w1, fv) := Eval(p, false, c.func, w);
    ArgsAgree(p, c.args, |c.args|, w1);
    var (w2, vs) := EvalArgs(p, false, c.args, |c.args|, w1);
    KeywordsAgree(p, c, |c.keywords|, w2);
    var (w3, ks) := EvalKeywords(p, false, c, |c.keywords|, w2);
    EvalCall(p, true, c, w);
    EvalCall(p, false, c, w);
    GuardNoticed(p, w3, fv, vs, ks);
  }

  // ---- a keyword named train ----

  /** A keyword written in a call is in the dictionary, under its name. */
  ghost predicate BindsNames<W(!new), V(!new)>(p: Python<W, V>) {
    forall kws: seq<Arg<V>>, i :: 0 <= i < |kws| && kws[i].name.Some? && p.bound(kws).Some? ==> kws[i].name.value in p.bound(kws).value
  }

  /** A train call with such a keyword: model.train(data=data, train=value). */
  const NAMES_TRAIN := Call(Attribute(Name("model"), "train"), [], [Keyword(Some("data"), Name("data")), Keyword(Some("train"), Name("value"))])

  /** Rewritten, it raises in every world and under every meaning, and the model's train function is not called;
      the original call is made with that keyword. */
  lemma NamedTrainRaises<W(!new), V(!new)>(p: Python<W, V>, w: W)
    requires Compositional(p) && HelperBound(p) && BindsNames(p)
    ensures var (w3, f, args, kws) := Operands(p, NAMES_TRAIN, w);
      && Eval(p, false, Transform(NAMES_TRAIN), w) == (w3, p.typeError)
      && Eval(p, false, NAMES_TRAIN, w) == p.call(w3, f, args, kws)
      && |kws| == 2 && kws[1].name == Some("train")
  {
    hide Compositional, HelperBound, Transform;
    var c := NAMES_TRAIN;
    TransformMeaning(p, c, w);
    EvalCall(p, true, c, w);
    EvalCall(p, false, c, w);
    assert c.keywords[0].arg == Some("data") && IsTrain(c.func, c.keywords);
    assert forall u: W :: EvalKeywords(p, true, c, 2, u) == EvalKeywords(p, false, c, 2, u) && |EvalKeywords(p, false, c, 2, u).1| == 2
                          && EvalKeywords(p, false, c, 2, u).1[1].name == Some("train") by {
      forall u: W ensures EvalKeywords(p, true, c, 2, u) == EvalKeywords(p, false, c, 2, u) && |EvalKeywords(p, false, c, 2, u).1| == 2
                          && EvalKeywords(p, false, c, 2, u).1[1].name == Some("train") {
        TwoKeywords(p, true, u);
        TwoKeywords(p, false, u);
      }
    }
  }

  lemma TwoKeywords<W(!new), V(!new)>(p: Python<W, V>, policy: bool, u: W)
    ensures var (w1, data) := p.name(u, "data");
      var (w2, value) := p.name(w1, "value");
      EvalKeywords(p, policy, NAMES_TRAIN, 2, u) == (w2, [Arg(Some("data"), data), Arg(Some("train"), value)])
  {
    var c := NAMES_TRAIN;
    var (w1, data) := p.name(u, "data");
    var (w2, value) := p.name(w1, "value");
    assert c.keywords[0] == Keyword(Some("data"), Name("data")) && c.keywords[1] == Keyword(Some("train"), Name("value"));
    assert EvalKeywords(p, policy, c, 0, u) == (u, []);
    assert Eval(p, policy, Name("data"), u) == (w1, data) && Eval(p, policy, Name("value"), w1) == (w2, value);
    assert EvalKeywords(p, policy, c, 1, u) == (w1, [] + [Arg(Some("data"), data)]);
    assert [] + [Arg(Some("data"), data)] == [Arg(Some("data"), data)];
    assert EvalKeywords(p, policy, c, 2, u) == (w2, [Arg(Some("data"), data)] + [Arg(Some("train"), value)]);
    assert [Arg(Some("data"), data)] + [Arg(Some("train"), value)] == [Arg(Some("data"), data), Arg(Some("train"), value)];
  }
}
