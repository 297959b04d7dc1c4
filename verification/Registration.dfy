/** What the registration calls of a router add to it, call by call, failed calls included. */
module Registration {
  import opened Wrappers
  import opened Chain
  import opened PatternParser
  import opened PatternMounting
  import opened Mounts

  /** Whether a pattern string is accepted: it parses, and the expression made of it compiles. */
  type Compiler = string -> bool

  predicate Compiles(compiler: Compiler, pattern: string) {
    compiler(pattern)
  }

  datatype RouteDescriptor = RouteDescriptor(pattern: string, metadata: Option<nat>)

  /** What is passed to a registration call: a function, an object that implements some of the handler interfaces and
      may be a router with descriptors of its own, a route option, or something else. */
  datatype Argument =
    | Function(ref: nat)
    | Object(ref: nat, handles: bool, opens: bool, closes: bool, router: Option<seq<RouteDescriptor>>)
    | Metadata(value: nat)
    | OtherOption
    | Mistake

  /** A node of one of the lists. */
  datatype NodeView = NodeView(bindType: BindType, pattern: Option<string>, handlers: seq<Argument>)

  /** What one call adds: nodes to each list, descriptors it asks for, and the panic it ends in, if any. */
  datatype Effect = Effect(
    normal: seq<NodeView>,
    open: seq<NodeView>,
    close: seq<NodeView>,
    requests: seq<RouteDescriptor>,
    panic: Option<string>)

  const NOTHING := Effect([], [], [], [], None)

  const NO_HANDLERS := "no handlers provided"
  const INVALID_HANDLER := "invalid handler type"
  const INVALID_PATTERN := "invalid route pattern"
  const PUBLIC_ROUTER := "cannot use PublicBind with a RouterHandler. Use the Use method instead."

  function Panics(reason: string): Effect {
    NOTHING.(panic := Some(reason))
  }

  /** One effect after another; a panic ends the call. */
  function Then(e: Effect, f: Effect): Effect {
    if e.panic.Some? then e
    else Effect(e.normal + f.normal, e.open + f.open, e.close + f.close, e.requests + f.requests, f.panic)
  }

  predicate IsOption(a: Argument) {
    a.Metadata? || a.OtherOption?
  }

  function Handlers(arguments: seq<Argument>): seq<Argument> {
    if |arguments| == 0 then []
    else
      var last := arguments[|arguments| - 1];
      Handlers(arguments[..|arguments| - 1]) + if IsOption(last) then [] else [last]
  }

  /** The last metadata given. */
  function MetadataOf(arguments: seq<Argument>): Option<nat> {
    if |arguments| == 0 then None
    else
      var last := arguments[|arguments| - 1];
      if last.Metadata? then Some(last.value) else MetadataOf(arguments[..|arguments| - 1])
  }

  predicate Accepted(a: Argument, bindType: BindType) {
    match a
    case Function(_) => true
    case Object(_, handles, opens, closes, _) =>
      (match bindType case NormalBind => handles case OpenBind => opens case CloseBind => closes)
    case _ => false
  }

  function Hooks(handlers: seq<Argument>, bindType: BindType): Effect {
    if |handlers| == 0 then Panics(NO_HANDLERS)
    else if exists h :: h in handlers && !Accepted(h, bindType) then Panics(INVALID_HANDLER)
    else
      var node := NodeView(bindType, None, handlers);
      if bindType.OpenBind? then NOTHING.(open := [node]) else NOTHING.(close := [node])
  }

  /** The hooks of one bound handler. */
  function OwnHooks(h: Argument): Effect {
    NOTHING.(
      open := if h.Object? && h.opens then [NodeView(OpenBind, None, [h])] else [],
      close := if h.Object? && h.closes then [NodeView(CloseBind, None, [h])] else [])
  }

  /** The descriptors of a mounted router, each below the mount path, up to the first that is no pattern. */
  function NestedRequests(compiler: Compiler, mountPath: string, nested: seq<RouteDescriptor>): Effect {
    if |nested| == 0 then NOTHING
    else if !Compiles(compiler, mountPath + nested[0].pattern) then Panics(INVALID_PATTERN)
    else Then(NOTHING.(requests := [nested[0].(pattern := mountPath + nested[0].pattern)]),
        NestedRequests(compiler, mountPath, nested[1..]))
  }

  function Binding(compiler: Compiler, isPublic: bool, path: string, h: Argument): Effect {
    Then(OwnHooks(h),
         if !h.Object? || h.router.None? then NOTHING
         else if isPublic then Panics(PUBLIC_ROUTER)
         else NestedRequests(compiler, TrimSuffix(path, ANYTHING_BELOW), h.router.value))
  }

  function Bindings(compiler: Compiler, isPublic: bool, path: string, handlers: seq<Argument>): Effect {
    if |handlers| == 0 then NOTHING
        else Then(Binding(compiler, isPublic, path, handlers[0]), Bindings(compiler, isPublic, path, handlers[1..]))
  }

  /** The descriptor of a public route. */
  function Requested(isPublic: bool, path: string, metadata: Option<nat>): Effect {
    NOTHING.(requests := if isPublic then [RouteDescriptor(path, metadata)] else [])
  }

  function Appended(path: string, handlers: seq<Argument>): Effect {
    NOTHING.(normal := [NodeView(NormalBind, Some(path), handlers)])
  }

  function Bind(compiler: Compiler, isPublic: bool, path: string, arguments: seq<Argument>): Effect {
    var handlers := Handlers(arguments);
    if |handlers| == 0 then Panics(NO_HANDLERS)
    else if exists h :: h in handlers && !Accepted(h, NormalBind) then Panics(INVALID_HANDLER)
    else if !Compiles(compiler, path) then Panics(INVALID_PATTERN)
    else
      Then(Requested(isPublic, path, MetadataOf(arguments)),
           Then(Bindings(compiler, isPublic, path, handlers), Appended(path, handlers)))
  }

  datatype Call =
    | CallBind(path: string, arguments: seq<Argument>)
    | CallPublicBind(path: string, arguments: seq<Argument>)
    | CallUse(mount: Option<string>, arguments: seq<Argument>)
    | CallUseOpen(arguments: seq<Argument>)
    | CallUseClose(arguments: seq<Argument>)

  function EffectOf(compiler: Compiler, call: Call): Effect {
    match call
    case CallBind(path, arguments) => Bind(compiler, false, path, arguments)
    case CallPublicBind(path, arguments) => Bind(compiler, true, path, arguments)
    case CallUse(mount, arguments) => Bind(compiler, false, MountPath(mount), arguments)
    case CallUseOpen(arguments) => Hooks(arguments, OpenBind)
    case CallUseClose(arguments) => Hooks(arguments, CloseBind)
  }

  // ---- Descriptors

  predicate Described(descriptors: seq<RouteDescriptor>, pattern: string) {
    exists i :: 0 <= i < |descriptors| && descriptors[i].pattern == pattern
  }

  /** A pattern already described is not described again. */
  function Add(descriptors: seq<RouteDescriptor>, d: RouteDescriptor): seq<RouteDescriptor> {
    if Described(descriptors, d.pattern) then descriptors else descriptors + [d]
  }

  function AddAll(descriptors: seq<RouteDescriptor>, requests: seq<RouteDescriptor>): seq<RouteDescriptor>
    decreases |requests|
  {
    if |requests| == 0 then descriptors else AddAll(Add(descriptors, requests[0]), requests[1..])
  }

  /** A router as a value: its lists in order, and its descriptors. */
  datatype Registered = Registered(
    normal: seq<NodeView>,
    open: seq<NodeView>,
    close: seq<NodeView>,
    descriptors: seq<RouteDescriptor>)

  const EMPTY := Registered([], [], [], [])

  function Extended(r: Registered, e: Effect): Registered {
    Registered(r.normal + e.normal, r.open + e.open, r.close + e.close, AddAll(r.descriptors, e.requests))
  }

  /** A router after calls that may each have panicked and been recovered by the caller. */
  function After(compiler: Compiler, r: Registered, calls: seq<Call>): Registered
    decreases |calls|
  {
    if |calls| == 0 then r else After(compiler, Extended(r, EffectOf(compiler, calls[0])), calls[1..])
  }

  function Requests(compiler: Compiler, calls: seq<Call>): seq<RouteDescriptor> {
    if |calls| == 0 then [] else EffectOf(compiler, calls[0]).requests + Requests(compiler, calls[1..])
  }

  function Nodes(compiler: Compiler, calls: seq<Call>, bindType: BindType): seq<NodeView> {
    if |calls| == 0 then []
    else
      var e := EffectOf(compiler, calls[0]);
      (match bindType case NormalBind => e.normal case OpenBind => e.open case CloseBind => e.close)
          + Nodes(compiler, calls[1..], bindType)
  }

  // ---- Laws of descriptors

  lemma {:induction false} AddAllAppend(descriptors: seq<RouteDescriptor>, a: seq<RouteDescriptor>,
                                        b: seq<RouteDescriptor>)
    ensures AddAll(descriptors, a + b) == AddAll(AddAll(descriptors, a), b)
    decreases |a|
  {
    if |a| == 0 {
      assert a + b == b;
    } else {
      assert (a + b)[1..] == a[1..] + b;
      AddAllAppend(Add(descriptors, a[0]), a[1..], b);
    }
  }

  predicate Unique(descriptors: seq<RouteDescriptor>) {
    forall i, j :: 0 <= i < j < |descriptors| ==> descriptors[i].pattern != descriptors[j].pattern
  }

  /** The first request of its pattern. */
  predicate IsFirst(requests: seq<RouteDescriptor>, i: int) {
    0 <= i < |requests| && forall j :: 0 <= j < i ==> requests[j].pattern != requests[i].pattern
  }

  /** Exactly the first requests of each pattern, each once, in the order they were made. */
  ghost predicate FirstOfEach(descriptors: seq<RouteDescriptor>, requests: seq<RouteDescriptor>, at: seq<int>) {
    && |at| == |descriptors|
    && (forall k :: 0 <= k < |at| ==> IsFirst(requests, at[k]) && descriptors[k] == requests[at[k]])
    && (forall k, l :: 0 <= k < l < |at| ==> at[k] < at[l])
    && (forall i :: IsFirst(requests, i) ==> i in at)
  }

  lemma {:induction false} AddedAreFirst(requests: seq<RouteDescriptor>) returns (at: seq<int>)
    ensures FirstOfEach(AddAll([], requests), requests, at)
    decreases |requests|
  {
    if |requests| == 0 {
      at := [];
    } else {
      var n := |requests| - 1;
      var before := requests[..n];
      var earlier := AddedAreFirst(before);
      assert requests == before + [requests[n]];
      AddAllAppend([], before, [requests[n]]);
      assert [requests[n]][1..] == [];
      at := NextIsFirst(AddAll([], before), requests, earlier);
    }
  }

  lemma NextIsFirst(descriptors: seq<RouteDescriptor>, requests: seq<RouteDescriptor>, earlier: seq<int>)
    returns (at: seq<int>)
    requires |requests| > 0 && FirstOfEach(descriptors, requests[..|requests| - 1], earlier)
    ensures FirstOfEach(Add(descriptors, requests[|requests| - 1]), requests, at)
  {
    var n := |requests| - 1;
    var before, last := requests[..n], requests[n];
    DescribedIfRequested(descriptors, before, earlier, last.pattern);
    assert forall j :: 0 <= j < n ==> requests[j] == before[j];
    FirstOfMore(before, last);
    assert before + [last] == requests;
    if Described(descriptors, last.pattern) {
      at := earlier;
    } else {
      at := earlier + [n];
      assert forall k :: 0 <= k < |earlier| ==> IsFirst(before, earlier[k]);
    }
  }

  /** One more request is the first of its pattern or changes nothing. */
  lemma FirstOfMore(before: seq<RouteDescriptor>, last: RouteDescriptor)
    ensures forall i :: IsFirst(before + [last], i) <==>
              IsFirst(before, i) || (i == |before| && !Described(before, last.pattern))
  {
    forall i | 0 <= i < |before| ensures IsFirst(before + [last], i) <==> IsFirst(before, i) {
      assert forall j :: 0 <= j <= i ==> (before + [last])[j] == before[j];
    }
    var n := |before|;
    assert forall j :: 0 <= j < n ==> (before + [last])[j] == before[j];
  }

  lemma DescribedIfRequested(descriptors: seq<RouteDescriptor>, requests: seq<RouteDescriptor>, at: seq<int>,
                             pattern: string)
    requires FirstOfEach(descriptors, requests, at)
    ensures Described(descriptors, pattern) <==> Described(requests, pattern)
  {
    if Described(requests, pattern) {
      var i := FirstRequest(requests, pattern);
      var k :| 0 <= k < |at| && at[k] == i;
      assert descriptors[k].pattern == pattern;
    }
  }

  lemma {:induction false} FirstRequest(requests: seq<RouteDescriptor>, pattern: string) returns (i: int)
    requires Described(requests, pattern)
    ensures IsFirst(requests, i) && requests[i].pattern == pattern
    decreases |requests|
  {
    var n := |requests| - 1;
    if Described(requests[..n], pattern) {
      i := FirstRequest(requests[..n], pattern);
    } else {
      i := n;
      assert forall j :: 0 <= j < n ==> requests[..n][j].pattern != pattern;
    }
  }

  // ---- Registration order

  /** A router with more nodes and requests. */
  function More(r: Registered, normal: seq<NodeView>, open: seq<NodeView>, close: seq<NodeView>,
                requests: seq<RouteDescriptor>): Registered {
    Registered(r.normal + normal, r.open + open, r.close + close, AddAll(r.descriptors, requests))
  }

  lemma MoreAgain(r: Registered, e: Effect, normal: seq<NodeView>, open: seq<NodeView>, close: seq<NodeView>,
                  requests: seq<RouteDescriptor>)
    ensures More(Extended(r, e), normal, open, close, requests)
            == More(r, e.normal + normal, e.open + open, e.close + close, e.requests + requests)
  {
    AddAllAppend(r.descriptors, e.requests, requests);
    assert r.normal + e.normal + normal == r.normal + (e.normal + normal);
    assert r.open + e.open + open == r.open + (e.open + open);
    assert r.close + e.close + close == r.close + (e.close + close);
  }

  lemma NothingMore(r: Registered)
    ensures forall reason :: Extended(r, Panics(reason)) == r
    ensures Extended(r, NOTHING) == r
  {
    assert r.normal + [] == r.normal && r.open + [] == r.open && r.close + [] == r.close;
  }

  /** A call of UseOpen or UseClose adds one node, or nothing and panics. */
  lemma HooksExtend(r: Registered, handlers: seq<Argument>)
    ensures Extended(r, Hooks(handlers, OpenBind))
            == if Hooks(handlers, OpenBind).panic.Some? then r
                else r.(open := r.open + [NodeView(OpenBind, None, handlers)])
    ensures Extended(r, Hooks(handlers, CloseBind))
            == if Hooks(handlers, CloseBind).panic.Some? then r
                else r.(close := r.close + [NodeView(CloseBind, None, handlers)])
  {
    NothingMore(r);
    assert r.normal + [] == r.normal && r.open + [] == r.open && r.close + [] == r.close;
  }

  /** A mounted descriptor that is no pattern ends the requests, any other is the next one. */
  lemma {:induction false} NextRequest(compiler: Compiler, descriptors: seq<RouteDescriptor>, mountPath: string,
                                       nested: seq<RouteDescriptor>, i: nat)
    requires i < |nested|
    ensures var pattern := mountPath + nested[i].pattern;
            var now, next := NestedRequests(compiler, mountPath, nested[i..]),
                NestedRequests(compiler, mountPath, nested[i + 1..]);
            if !Compiles(compiler, pattern) then now == Panics(INVALID_PATTERN)
            else now.panic == next.panic
                 && AddAll(descriptors, now.requests)
                     == AddAll(Add(descriptors, nested[i].(pattern := pattern)), next.requests)
  {
    assert nested[i..][1..] == nested[i + 1..];
    var d, next := nested[i].(pattern := mountPath + nested[i].pattern),
        NestedRequests(compiler, mountPath, nested[i + 1..]);
    assert ([d] + next.requests)[1..] == next.requests;
  }

  lemma ExtendedAgain(r: Registered, e: Effect, f: Effect)
    requires e.panic.None?
    ensures Extended(Extended(r, e), f) == Extended(r, Then(e, f))
  {
    MoreAgain(r, e, f.normal, f.open, f.close, f.requests);
  }

  lemma {:induction false} NestedAddNoNodes(compiler: Compiler, mountPath: string, nested: seq<RouteDescriptor>)
    ensures var e := NestedRequests(compiler, mountPath, nested); e.normal == [] && e.open == [] && e.close == []
    decreases |nested|
  {
    if |nested| > 0 { NestedAddNoNodes(compiler, mountPath, nested[1..]); }
  }

  /** A bound handler adds its hooks, and its descriptors if it is a mounted router. */
  lemma {:induction false} BindingParts(compiler: Compiler, isPublic: bool, path: string, h: Argument)
    ensures var e, hooks := Binding(compiler, isPublic, path, h), OwnHooks(h);
            && e.normal == [] && e.open == hooks.open && e.close == hooks.close
            && if !h.Object? || h.router.None? then e.requests == [] && e.panic.None?
               else if isPublic then e.requests == [] && e.panic == Some(PUBLIC_ROUTER)
               else
                 var nested := NestedRequests(compiler, TrimSuffix(path, ANYTHING_BELOW), h.router.value);
                 e.requests == nested.requests && e.panic == nested.panic
  {
    if h.Object? && h.router.Some? {
      NestedAddNoNodes(compiler, TrimSuffix(path, ANYTHING_BELOW), h.router.value);
    }
  }

  lemma {:induction false} BindingExtends(compiler: Compiler, r: Registered, isPublic: bool, path: string, h: Argument)
    ensures var e := Binding(compiler, isPublic, path, h);
            Extended(r, e) == Registered(r.normal, r.open + OwnHooks(h).open, r.close + OwnHooks(h).close,
                AddAll(r.descriptors, e.requests))
  {
    BindingParts(compiler, isPublic, path, h);
    assert r.normal + [] == r.normal;
  }

  // ---- The loop over bound handlers, turn by turn

  /** The router before a turn, and the panic of that turn; the last stage is the router after all turns. */
  datatype Stage = Stage(before: Registered, panic: Option<string>)

  ghost predicate StageOk(compiler: Compiler, isPublic: bool, path: string, handlers: seq<Argument>, stages: seq<Stage>,
                          i: nat)
    requires i < |handlers| && |stages| == |handlers| + 1
  {
    && stages[i + 1].before == Extended(stages[i].before, Binding(compiler, isPublic, path, handlers[i]))
    && stages[i].panic == Binding(compiler, isPublic, path, handlers[i]).panic
  }

  ghost predicate Staged(compiler: Compiler, isPublic: bool, path: string, handlers: seq<Argument>,
                         stages: seq<Stage>) {
    |stages| == |handlers| + 1 && forall i: nat :: i < |handlers| ==>
        StageOk(compiler, isPublic, path, handlers, stages, i)
  }

  /** The turns before this one did not panic; with a panic, the last of them did. */
  predicate StopsAt(stages: seq<Stage>, turns: nat, panic: Option<string>) {
    && turns < |stages| && (forall i :: 0 <= i < (if panic.Some? then turns - 1 else turns) ==> stages[i].panic.None?)
    && (if panic.Some? then turns > 0 && stages[turns - 1].panic == panic else true)
  }

  lemma {:induction false} StagesOf(compiler: Compiler, r: Registered, isPublic: bool, path: string,
                                    handlers: seq<Argument>) returns (stages: seq<Stage>)
    ensures Staged(compiler, isPublic, path, handlers, stages) && stages[0].before == r
    decreases |handlers|
  {
    if |handlers| == 0 {
      stages := [Stage(r, None)];
    } else {
      var one := Binding(compiler, isPublic, path, handlers[0]);
      var rest := StagesOf(compiler, Extended(r, one), isPublic, path, handlers[1..]);
      stages := [Stage(r, one.panic)] + rest;
      forall i: nat | i < |handlers| ensures StageOk(compiler, isPublic, path, handlers, stages, i) {
        if i > 0 { assert StageOk(compiler, isPublic, path, handlers[1..], rest, i - 1); }
      }
    }
  }

  lemma {:induction false} StagedTail(compiler: Compiler, isPublic: bool, path: string, handlers: seq<Argument>,
                                      stages: seq<Stage>)
    requires Staged(compiler, isPublic, path, handlers, stages) && |handlers| > 0
    ensures Staged(compiler, isPublic, path, handlers[1..], stages[1..])
    ensures var one := Binding(compiler, isPublic, path, handlers[0]);
            stages[1].before == Extended(stages[0].before, one) && stages[0].panic == one.panic
  {
    assert StageOk(compiler, isPublic, path, handlers, stages, 0);
    forall i: nat | i < |handlers[1..]| ensures StageOk(compiler, isPublic, path, handlers[1..], stages[1..], i) {
      assert StageOk(compiler, isPublic, path, handlers, stages, i + 1);
    }
  }

  lemma StopsTail(stages: seq<Stage>, turns: nat, panic: Option<string>)
    requires StopsAt(stages, turns, panic) && turns > 0
    ensures stages[0].panic.Some? ==> turns == 1 && panic == stages[0].panic
    ensures stages[0].panic.None? ==> StopsAt(stages[1..], turns - 1, panic)
  {}

  lemma {:induction false} FirstBinding(compiler: Compiler, r: Registered, isPublic: bool, path: string,
                                        handlers: seq<Argument>)
    requires |handlers| > 0
    ensures var e, one := Bindings(compiler, isPublic, path, handlers), Binding(compiler, isPublic, path, handlers[0]);
            var rest := Bindings(compiler, isPublic, path, handlers[1..]);
            if one.panic.Some? then e == one
            else e.panic == rest.panic && Extended(r, e) == Extended(Extended(r, one), rest)
  {
    var one := Binding(compiler, isPublic, path, handlers[0]);
    if one.panic.None? { ExtendedAgain(r, one, Bindings(compiler, isPublic, path, handlers[1..])); }
  }

  /** The stages end where binding all handlers leads. */
  lemma {:induction false} StagesEnd(compiler: Compiler, r: Registered, isPublic: bool, path: string,
                                     handlers: seq<Argument>,
                                     stages: seq<Stage>, turns: nat, panic: Option<string>)
    requires Staged(compiler, isPublic, path, handlers, stages) && stages[0].before == r
    requires StopsAt(stages, turns, panic) && (panic.None? ==> turns == |handlers|)
    ensures var e := Bindings(compiler, isPublic, path, handlers);
            stages[turns].before == Extended(r, e) && panic == e.panic
    decreases |handlers|
  {
    if |handlers| == 0 {
      NothingMore(r);
    } else {
      StagedTail(compiler, isPublic, path, handlers, stages);
      StopsTail(stages, turns, panic);
      FirstBinding(compiler, r, isPublic, path, handlers);
      if stages[0].panic.None? {
        StagesEnd(compiler, stages[1].before, isPublic, path, handlers[1..], stages[1..], turns - 1, panic);
      }
    }
  }

  lemma RequestedExtends(r: Registered, isPublic: bool, path: string, metadata: Option<nat>)
    ensures Extended(r, Requested(isPublic, path, metadata))
            == r.(descriptors := if isPublic then Add(r.descriptors, RouteDescriptor(path, metadata))
                else r.descriptors)
  {
    assert r.normal + [] == r.normal && r.open + [] == r.open && r.close + [] == r.close;
    var one := [RouteDescriptor(path, metadata)];
    assert one[1..] == [] && AddAll(r.descriptors, one) == AddAll(Add(r.descriptors, one[0]), [])
        == Add(r.descriptors, one[0]);
    assert AddAll(r.descriptors, []) == r.descriptors;
  }

  lemma AppendedExtends(r: Registered, path: string, handlers: seq<Argument>)
    ensures Extended(r, Appended(path, handlers))
            == r.(normal := r.normal + [NodeView(NormalBind, Some(path), handlers)])
  {
    assert r.open + [] == r.open && r.close + [] == r.close;
  }

  lemma ThreeParts(r: Registered, first: Effect, middle: Effect, last: Effect)
    requires first.panic.None? && last.panic.None?
    ensures var e, started := Then(first, Then(middle, last)), Extended(Extended(r, first), middle);
            e.panic == middle.panic && Extended(r, e) == if middle.panic.Some? then started else Extended(started, last)
  {
    ExtendedAgain(r, first, Then(middle, last));
    if middle.panic.None? { ExtendedAgain(Extended(r, first), middle, last); }
  }

  /** A bind that finds its handlers and pattern in order adds its descriptor, then what its handlers bring, then,
      unless one of them panicked, its node. */
  lemma {:induction false} BindParts(compiler: Compiler, r: Registered, isPublic: bool, path: string,
                                     arguments: seq<Argument>)
    requires |Handlers(arguments)| > 0 && (forall h :: h in Handlers(arguments) ==> Accepted(h, NormalBind))
    requires Compiles(compiler, path)
    ensures var e, bound := Bind(compiler, isPublic, path, arguments),
            Bindings(compiler, isPublic, path, Handlers(arguments));
            var started := Extended(Extended(r, Requested(isPublic, path, MetadataOf(arguments))), bound);
            && e.panic == bound.panic
            && Extended(r, e) == if bound.panic.Some? then started
                else Extended(started, Appended(path, Handlers(arguments)))
  {
    ThreeParts(r, Requested(isPublic, path, MetadataOf(arguments)),
        Bindings(compiler, isPublic, path, Handlers(arguments)),
               Appended(path, Handlers(arguments)));
  }

  lemma {:induction false} AfterAddsInOrder(compiler: Compiler, r: Registered, calls: seq<Call>)
    ensures After(compiler, r, calls) == More(r, Nodes(compiler, calls, NormalBind), Nodes(compiler, calls, OpenBind),
            Nodes(compiler, calls, CloseBind), Requests(compiler, calls))
    decreases |calls|
  {
    if |calls| == 0 {
      assert r.normal + [] == r.normal && r.open + [] == r.open && r.close + [] == r.close;
    } else {
      var e, rest := EffectOf(compiler, calls[0]), calls[1..];
      AfterAddsInOrder(compiler, Extended(r, e), rest);
      MoreAgain(r, e, Nodes(compiler, rest, NormalBind), Nodes(compiler, rest, OpenBind),
          Nodes(compiler, rest, CloseBind), Requests(compiler, rest));
    }
  }

  /** After any calls, each list holds what the calls added to it, in their order, and the descriptors are exactly the
      first request of each pattern, with its metadata, in the order the patterns were first asked for. */
  lemma {:induction false} CallsRegisterInOrder(compiler: Compiler, calls: seq<Call>) returns (at: seq<int>)
    ensures var r := After(compiler, EMPTY, calls);
            && r.normal == Nodes(compiler, calls, NormalBind) && r.open == Nodes(compiler, calls, OpenBind)
                && r.close == Nodes(compiler, calls, CloseBind)
            && FirstOfEach(r.descriptors, Requests(compiler, calls), at)
  {
    AfterAddsInOrder(compiler, EMPTY, calls);
    assert [] + Nodes(compiler, calls, NormalBind) == Nodes(compiler, calls, NormalBind);
    assert [] + Nodes(compiler, calls, OpenBind) == Nodes(compiler, calls, OpenBind);
    assert [] + Nodes(compiler, calls, CloseBind) == Nodes(compiler, calls, CloseBind);
    at := AddedAreFirst(Requests(compiler, calls));
  }

  // ---- Panics

  lemma {:induction false} BelowAddsAll(compiler: Compiler, prefix: string, nested: seq<RouteDescriptor>)
    requires forall d :: d in nested ==> Compiles(compiler, prefix + d.pattern)
    ensures var e := NestedRequests(compiler, prefix, nested);
            && e.panic.None? && e.normal == [] && |e.requests| == |nested|
            && forall i :: 0 <= i < |nested| ==> e.requests[i] == nested[i].(pattern := prefix + nested[i].pattern)
    decreases |nested|
  {
    if |nested| > 0 {
      assert nested[0] in nested;
      assert forall d :: d in nested[1..] ==> d in nested;
      BelowAddsAll(compiler, prefix, nested[1..]);
    }
  }

  /** A compiler that goes by the chunks: the pattern parses, and the library takes the text of each chunk. */
  function ByChunks(accepts: Chunk -> bool): Compiler {
    pattern => Parse(pattern).Ok? && forall c :: c in Parse(pattern).value ==> accepts(c)
  }

  /** A pattern below a prefix compiles exactly if both do, unless a parenthesis left open in the prefix takes in its
      start. */
  lemma {:induction false} MountedPatternCompiles(accepts: Chunk -> bool, prefix: string, pattern: string)
    requires (|pattern| > 0 ==> pattern[0] == '/') && (Closed(prefix) || ')' !in pattern)
    ensures var compiler := ByChunks(accepts);
            Compiles(compiler, prefix + pattern) <==> Compiles(compiler, prefix) && Compiles(compiler, pattern)
  {
    if |pattern| == 0 {
      assert prefix + pattern == prefix;
    } else {
      ScanBoth(prefix, None, pattern);
    }
  }

  lemma {:induction false} PrefixCompiles(accepts: Chunk -> bool, path: string)
    requires Compiles(ByChunks(accepts), path)
    ensures Compiles(ByChunks(accepts), TrimSuffix(path, ANYTHING_BELOW))
  {
    if HasSuffix(path, ANYTHING_BELOW) {
      var prefix := TrimSuffix(path, ANYTHING_BELOW);
      assert path == prefix + ANYTHING_BELOW;
      MountedPatternCompiles(accepts, prefix, ANYTHING_BELOW);
    }
  }

  /** A router whose descriptors compile mounts without a panic exactly where the mount pattern compiles, if that
      leaves no parenthesis open before a descriptor that could close it; and each descriptor is asked for below the
      mount, with its metadata, in order. */
  lemma {:induction false} MountDescribesNested(accepts: Chunk -> bool, path: string, h: Argument)
    requires h.Object? && h.handles && h.router.Some?
    requires forall d :: d in h.router.value ==>
               Compiles(ByChunks(accepts), d.pattern) && (Closed(TrimSuffix(path, ANYTHING_BELOW)) || ')' !in d.pattern)
    ensures var compiler := ByChunks(accepts);
            var e, nested := Bind(compiler, false, path, [h]), h.router.value;
            && (e.panic.None? <==> Compiles(compiler, path))
            && (e.panic.None? ==>
                  && e.normal == [NodeView(NormalBind, Some(path), [h])] && |e.requests| == |nested|
                  && forall i :: 0 <= i < |nested| ==>
                       e.requests[i] == nested[i].(pattern := TrimSuffix(path, ANYTHING_BELOW) + nested[i].pattern))
  {
    var compiler, prefix := ByChunks(accepts), TrimSuffix(path, ANYTHING_BELOW);
    SingleHandler(h);
    if Compiles(compiler, path) {
      PrefixCompiles(accepts, path);
      forall d | d in h.router.value ensures Compiles(compiler, prefix + d.pattern) {
        DescriptorStarts(d.pattern);
        MountedPatternCompiles(accepts, prefix, d.pattern);
      }
      BelowAddsAll(compiler, prefix, h.router.value);
      OneHandler(compiler, path, h);
    }
  }

  lemma DescriptorStarts(pattern: string)
    requires Parse(pattern).Ok?
    ensures |pattern| > 0 ==> pattern[0] == '/'
  {}

  lemma SingleHandler(h: Argument)
    requires !IsOption(h)
    ensures Handlers([h]) == [h]
  {
    assert [h][..0] == [];
    assert Handlers([]) == [] && [] + [h] == [h];
  }

  lemma {:induction false} SingleBinding(compiler: Compiler, path: string, h: Argument)
    ensures Bindings(compiler, false, path, [h]) == Then(Binding(compiler, false, path, h), NOTHING)
  {
    assert [h][1..] == [];
  }

  lemma {:induction false} OneHandler(compiler: Compiler, path: string, h: Argument)
    requires Compiles(compiler, path) && h.Object? && h.handles && h.router.Some?
    requires NestedRequests(compiler, TrimSuffix(path, ANYTHING_BELOW), h.router.value).panic.None?
    ensures var e := Bind(compiler, false, path, [h]);
            && e.panic.None? && e.normal == [NodeView(NormalBind, Some(path), [h])]
            && e.requests == NestedRequests(compiler, TrimSuffix(path, ANYTHING_BELOW), h.router.value).requests
  {
    SingleHandler(h);
    SingleBinding(compiler, path, h);
    BindingParts(compiler, false, path, h);
    BoundAlone(Requested(false, path, MetadataOf([h])), Binding(compiler, false, path, h), Appended(path, [h]));
  }

  /** Between a request for nothing and the node, what is bound is all that is asked for. */
  lemma BoundAlone(first: Effect, bound: Effect, last: Effect)
    requires first.panic.None? && first.normal == [] && first.requests == [] && bound.panic.None? && bound.normal == []
    requires last.panic.None? && last.requests == []
    ensures var e := Then(first, Then(Then(bound, NOTHING), last));
            e.panic.None? && e.normal == last.normal && e.requests == bound.requests
  {
    assert [] + ([] + [] + last.normal) == last.normal && [] + (bound.requests + [] + []) == bound.requests;
  }
}
