/** The router as an object: three linked lists of handler nodes, built by appending, and an index of descriptors. */
module Routers {
  import opened Wrappers
  import opened Chain
  import opened Mounts
  import opened Registration
  import RegistrationCalls

  class HandlerNode {
    const bindType: BindType
    const pattern: Option<string>
    const handlers: seq<Argument>
    var next: HandlerNode?

    constructor (bindType: BindType, pattern: Option<string>, handlers: seq<Argument>)
      ensures this.bindType == bindType && this.pattern == pattern && this.handlers == handlers && next == null
    {
      this.bindType, this.pattern, this.handlers, next := bindType, pattern, handlers, null;
    }

    function View(): NodeView {
      NodeView(bindType, pattern, handlers)
    }
  }

  /** These nodes, in this order, are what the first and last pointers and the links hold. */
  ghost predicate IsList(first: HandlerNode?, last: HandlerNode?, nodes: seq<HandlerNode>, bindType: BindType)
    reads nodes
  {
    && (if |nodes| == 0 then first == null && last == null else first == nodes[0] && last == nodes[|nodes| - 1])
    && (forall i {:trigger nodes[i].next} :: 0 <= i < |nodes| ==>
        nodes[i].next == if i + 1 < |nodes| then nodes[i + 1] else null)
    && (forall n :: n in nodes ==> n.bindType == bindType)
  }

  /** A list of handler nodes never comes back to a node: following the links ends after the last. */
  lemma {:induction false} ListIsAcyclic(first: HandlerNode?, last: HandlerNode?, nodes: seq<HandlerNode>,
                                         bindType: BindType, i: nat, j: nat)
    requires IsList(first, last, nodes, bindType) && i < j < |nodes|
    ensures nodes[i] != nodes[j]
    decreases |nodes| - j
  {
    if nodes[i] == nodes[j] {
      assert nodes[i].next == nodes[i + 1];
      if j + 1 < |nodes| {
        assert nodes[j].next == nodes[j + 1];
        ListIsAcyclic(first, last, nodes, bindType, i + 1, j + 1);
      }
    }
  }

  function Views(nodes: seq<HandlerNode>): seq<NodeView> {
    if |nodes| == 0 then [] else Views(nodes[..|nodes| - 1]) + [nodes[|nodes| - 1].View()]
  }

  lemma ViewsAppend(nodes: seq<HandlerNode>, node: HandlerNode)
    ensures Views(nodes + [node]) == Views(nodes) + [node.View()]
  {
    assert (nodes + [node])[..|nodes|] == nodes;
  }

  /** One node was appended to the message handlers, of the arguments in their order without the options. */
  ghost predicate Appends(before: Registered, now: Registered, path: string, arguments: seq<Argument>) {
    && |now.normal| == |before.normal| + 1 && now.normal[..|before.normal|] == before.normal
    && var node := now.normal[|before.normal|];
       && node.bindType == NormalBind && node.pattern == Some(path)
       && (exists at :: RegistrationCalls.OptionsLeftOut(arguments, node.handlers, at))
       && ((forall a :: a in arguments ==> RegistrationCalls.NoOption(a)) ==> node.handlers == arguments)
  }

  lemma {:induction false} BindAppends(compiler: Compiler, r: Registered, isPublic: bool, path: string,
                                       arguments: seq<Argument>)
    requires Registration.Bind(compiler, isPublic, path, arguments).panic.None?
    ensures Appends(r, Extended(r, Registration.Bind(compiler, isPublic, path, arguments)), path, arguments)
  {
    RegistrationCalls.BindAdds(compiler, isPublic, path, arguments);
    var at := RegistrationCalls.HandlersInOrder(arguments);
    if forall a :: a in arguments ==> RegistrationCalls.NoOption(a) {
      RegistrationCalls.ArgumentsAreHandlers(arguments);
    }
  }

  class Router {
    const compiler: Compiler
    var firstHandlerNode: HandlerNode?
    var lastHandlerNode: HandlerNode?
    var firstOpenHandlerNode: HandlerNode?
    var lastOpenHandlerNode: HandlerNode?
    var firstCloseHandlerNode: HandlerNode?
    var lastCloseHandlerNode: HandlerNode?
    var routeDescriptorMap: Option<set<string>>
    var routeDescriptors: seq<RouteDescriptor>

    ghost var nodes: seq<HandlerNode>
    ghost var openNodes: seq<HandlerNode>
    ghost var closeNodes: seq<HandlerNode>
    ghost var Repr: set<HandlerNode>

    ghost predicate Valid()
      reads this, Repr
    {
      && (forall n :: n in nodes ==> n in Repr) && (forall n :: n in openNodes ==> n in Repr)
          && (forall n :: n in closeNodes ==> n in Repr)
      && IsList(firstHandlerNode, lastHandlerNode, nodes, NormalBind)
      && IsList(firstOpenHandlerNode, lastOpenHandlerNode, openNodes, OpenBind)
      && IsList(firstCloseHandlerNode, lastCloseHandlerNode, closeNodes, CloseBind)
      && Indexed()
    }

    /** The index has exactly the patterns of the descriptors, none twice. */
    ghost predicate Indexed()
      reads this
    {
      && (routeDescriptorMap.None? ==> |routeDescriptors| == 0)
      && (routeDescriptorMap.Some? ==> forall p :: p in routeDescriptorMap.value <==> Described(routeDescriptors, p))
      && Unique(routeDescriptors)
    }

    ghost function Contents(): Registered
      reads this
    {
      Registered(Views(nodes), Views(openNodes), Views(closeNodes), routeDescriptors)
    }

    constructor (compiler: Compiler)
      ensures Valid() && fresh(Repr) && Contents() == EMPTY && this.compiler == compiler
    {
      this.compiler := compiler;
      firstHandlerNode, lastHandlerNode := null, null;
      firstOpenHandlerNode, lastOpenHandlerNode := null, null;
      firstCloseHandlerNode, lastCloseHandlerNode := null, null;
      routeDescriptorMap, routeDescriptors := None, [];
      nodes, openNodes, closeNodes, Repr := [], [], [], {};
    }

    method AddRouteDescriptor(d: RouteDescriptor)
      requires Indexed()
      modifies `routeDescriptorMap, `routeDescriptors
      ensures Indexed() && routeDescriptors == Add(old(routeDescriptors), d)
    {
      if routeDescriptorMap.None? { routeDescriptorMap := Some({}); }
      if d.pattern in routeDescriptorMap.value { return; }
      routeDescriptorMap := Some(routeDescriptorMap.value + {d.pattern});
      ghost var before := routeDescriptors;
      routeDescriptors := routeDescriptors + [d];
      forall p ensures Described(routeDescriptors, p) <==> Described(before, p) || p == d.pattern {
        if Described(before, p) {
          var i :| 0 <= i < |before| && before[i].pattern == p;
          assert routeDescriptors[i] == before[i];
        }
        assert routeDescriptors[|before|] == d;
      }
    }

    method AppendNode(node: HandlerNode)
      requires IsList(firstHandlerNode, lastHandlerNode, nodes, NormalBind)
      requires node.bindType == NormalBind && node.next == null && node !in nodes
      modifies `firstHandlerNode, `lastHandlerNode, `nodes, nodes
      ensures IsList(firstHandlerNode, lastHandlerNode, nodes, NormalBind) && nodes == old(nodes) + [node]
    {
      if firstHandlerNode == null {
        firstHandlerNode, lastHandlerNode := node, node;
      } else {
        lastHandlerNode.next := node;
        lastHandlerNode := node;
      }
      nodes := nodes + [node];
    }

    method AppendOpenNode(node: HandlerNode)
      requires IsList(firstOpenHandlerNode, lastOpenHandlerNode, openNodes, OpenBind)
      requires node.bindType == OpenBind && node.next == null && node !in openNodes
      modifies `firstOpenHandlerNode, `lastOpenHandlerNode, `openNodes, openNodes
      ensures IsList(firstOpenHandlerNode, lastOpenHandlerNode, openNodes, OpenBind)
      ensures openNodes == old(openNodes) + [node]
    {
      if firstOpenHandlerNode == null {
        firstOpenHandlerNode, lastOpenHandlerNode := node, node;
      } else {
        lastOpenHandlerNode.next := node;
        lastOpenHandlerNode := node;
      }
      openNodes := openNodes + [node];
    }

    method AppendCloseNode(node: HandlerNode)
      requires IsList(firstCloseHandlerNode, lastCloseHandlerNode, closeNodes, CloseBind)
      requires node.bindType == CloseBind && node.next == null && node !in closeNodes
      modifies `firstCloseHandlerNode, `lastCloseHandlerNode, `closeNodes, closeNodes
      ensures IsList(firstCloseHandlerNode, lastCloseHandlerNode, closeNodes, CloseBind)
      ensures closeNodes == old(closeNodes) + [node]
    {
      if firstCloseHandlerNode == null {
        firstCloseHandlerNode, lastCloseHandlerNode := node, node;
      } else {
        lastCloseHandlerNode.next := node;
        lastCloseHandlerNode := node;
      }
      closeNodes := closeNodes + [node];
    }

    /** Touching nodes of one list keeps the others: their nodes have another bind type. */
    twostate lemma OpenTouched()
      requires old(Valid()) && nodes == old(nodes) && closeNodes == old(closeNodes)
      requires firstHandlerNode == old(firstHandlerNode) && lastHandlerNode == old(lastHandlerNode)
      requires firstCloseHandlerNode == old(firstCloseHandlerNode) && lastCloseHandlerNode == old(lastCloseHandlerNode)
      requires forall n :: (n in nodes || n in closeNodes) && n !in old(openNodes) ==> n.next == old(n.next)
      ensures IsList(firstHandlerNode, lastHandlerNode, nodes, NormalBind)
      ensures IsList(firstCloseHandlerNode, lastCloseHandlerNode, closeNodes, CloseBind)
    {
      assert forall n :: n in old(openNodes) ==> n.bindType == OpenBind;
      forall i | 0 <= i < |nodes| ensures nodes[i].next
          == old(nodes[i].next) { assert nodes[i] in nodes && nodes[i].bindType == NormalBind; }
      forall i | 0 <= i < |closeNodes| ensures closeNodes[i].next
          == old(closeNodes[i].next) { assert closeNodes[i] in closeNodes && closeNodes[i].bindType == CloseBind; }
    }

    twostate lemma CloseTouched()
      requires old(Valid()) && nodes == old(nodes) && openNodes == old(openNodes)
      requires firstHandlerNode == old(firstHandlerNode) && lastHandlerNode == old(lastHandlerNode)
      requires firstOpenHandlerNode == old(firstOpenHandlerNode) && lastOpenHandlerNode == old(lastOpenHandlerNode)
      requires forall n :: (n in nodes || n in openNodes) && n !in old(closeNodes) ==> n.next == old(n.next)
      ensures IsList(firstHandlerNode, lastHandlerNode, nodes, NormalBind)
      ensures IsList(firstOpenHandlerNode, lastOpenHandlerNode, openNodes, OpenBind)
    {
      assert forall n :: n in old(closeNodes) ==> n.bindType == CloseBind;
      forall i | 0 <= i < |nodes| ensures nodes[i].next
          == old(nodes[i].next) { assert nodes[i] in nodes && nodes[i].bindType == NormalBind; }
      forall i | 0 <= i < |openNodes| ensures openNodes[i].next
          == old(openNodes[i].next) { assert openNodes[i] in openNodes && openNodes[i].bindType == OpenBind; }
    }

    twostate lemma NodesTouched()
      requires old(Valid()) && openNodes == old(openNodes) && closeNodes == old(closeNodes)
      requires firstOpenHandlerNode == old(firstOpenHandlerNode) && lastOpenHandlerNode == old(lastOpenHandlerNode)
      requires firstCloseHandlerNode == old(firstCloseHandlerNode) && lastCloseHandlerNode == old(lastCloseHandlerNode)
      requires forall n :: (n in openNodes || n in closeNodes) && n !in old(nodes) ==> n.next == old(n.next)
      ensures IsList(firstOpenHandlerNode, lastOpenHandlerNode, openNodes, OpenBind)
      ensures IsList(firstCloseHandlerNode, lastCloseHandlerNode, closeNodes, CloseBind)
    {
      assert forall n :: n in old(nodes) ==> n.bindType == NormalBind;
      forall i | 0 <= i < |openNodes| ensures openNodes[i].next
          == old(openNodes[i].next) { assert openNodes[i] in openNodes && openNodes[i].bindType == OpenBind; }
      forall i | 0 <= i < |closeNodes| ensures closeNodes[i].next
          == old(closeNodes[i].next) { assert closeNodes[i] in closeNodes && closeNodes[i].bindType == CloseBind; }
    }

    method AddOpenNode(handlers: seq<Argument>)
      requires Valid()
      modifies `firstOpenHandlerNode, `lastOpenHandlerNode, `openNodes, `Repr, Repr
      ensures Valid() && fresh(Repr - old(Repr))
      ensures Views(openNodes) == old(Views(openNodes)) + [NodeView(OpenBind, None, handlers)]
    {
      var node := new HandlerNode(OpenBind, None, handlers);
      AppendOpenNode(node);
      Repr := Repr + {node};
      OpenTouched();
      ViewsAppend(old(openNodes), node);
    }

    method AddCloseNode(handlers: seq<Argument>)
      requires Valid()
      modifies `firstCloseHandlerNode, `lastCloseHandlerNode, `closeNodes, `Repr, Repr
      ensures Valid() && fresh(Repr - old(Repr))
      ensures Views(closeNodes) == old(Views(closeNodes)) + [NodeView(CloseBind, None, handlers)]
    {
      var node := new HandlerNode(CloseBind, None, handlers);
      AppendCloseNode(node);
      Repr := Repr + {node};
      CloseTouched();
      ViewsAppend(old(closeNodes), node);
    }

    method AddHandlerNode(path: string, handlers: seq<Argument>)
      requires Valid()
      modifies `firstHandlerNode, `lastHandlerNode, `nodes, `Repr, Repr
      ensures Valid() && fresh(Repr - old(Repr))
      ensures Views(nodes) == old(Views(nodes)) + [NodeView(NormalBind, Some(path), handlers)]
    {
      var node := new HandlerNode(NormalBind, Some(path), handlers);
      AppendNode(node);
      Repr := Repr + {node};
      NodesTouched();
      ViewsAppend(old(nodes), node);
    }

    /** Registers open handlers; a panic is returned, and leaves the router as it was. */
    method UseOpen(handlers: seq<Argument>) returns (panic: Option<string>)
      requires Valid()
      modifies `firstOpenHandlerNode, `lastOpenHandlerNode, `openNodes, `Repr, Repr
      ensures Valid() && fresh(Repr - old(Repr))
      ensures Contents() == Extended(old(Contents()), EffectOf(compiler, CallUseOpen(handlers)))
      ensures panic == EffectOf(compiler, CallUseOpen(handlers)).panic
    {
      HooksExtend(Contents(), handlers);
      if |handlers| == 0 { return Some(NO_HANDLERS); }
      var ok := AllAccepted(handlers, OpenBind);
      if !ok { return Some(INVALID_HANDLER); }
      AddOpenNode(handlers);
      panic := None;
    }

    method UseClose(handlers: seq<Argument>) returns (panic: Option<string>)
      requires Valid()
      modifies `firstCloseHandlerNode, `lastCloseHandlerNode, `closeNodes, `Repr, Repr
      ensures Valid() && fresh(Repr - old(Repr))
      ensures Contents() == Extended(old(Contents()), EffectOf(compiler, CallUseClose(handlers)))
      ensures panic == EffectOf(compiler, CallUseClose(handlers)).panic
    {
      HooksExtend(Contents(), handlers);
      if |handlers| == 0 { return Some(NO_HANDLERS); }
      var ok := AllAccepted(handlers, CloseBind);
      if !ok { return Some(INVALID_HANDLER); }
      AddCloseNode(handlers);
      panic := None;
    }

    /** The descriptors of a mounted router, one by one. */
    method DescribeBelow(mountPath: string, nested: seq<RouteDescriptor>) returns (panic: Option<string>)
      requires Indexed()
      modifies `routeDescriptorMap, `routeDescriptors
      ensures Indexed()
      ensures routeDescriptors == AddAll(old(routeDescriptors), NestedRequests(compiler, mountPath, nested).requests)
      ensures panic == NestedRequests(compiler, mountPath, nested).panic
    {
      var i := 0;
      while i < |nested|
        invariant i <= |nested| && Indexed()
        invariant NestedRequests(compiler, mountPath, nested).panic
                  == NestedRequests(compiler, mountPath, nested[i..]).panic
        invariant AddAll(old(routeDescriptors), NestedRequests(compiler, mountPath, nested).requests)
                  == AddAll(routeDescriptors, NestedRequests(compiler, mountPath, nested[i..]).requests)
      {
        var pattern := mountPath + nested[i].pattern;
        NextRequest(compiler, routeDescriptors, mountPath, nested, i);
        if !Compiles(compiler, pattern) { return Some(INVALID_PATTERN); }
        AddRouteDescriptor(nested[i].(pattern := pattern));
        i := i + 1;
      }
      panic := None;
    }

    /** The lifecycle hooks of one bound handler. */
    method HookUp(h: Argument)
      requires Valid()
      modifies `firstOpenHandlerNode, `lastOpenHandlerNode, `openNodes, `firstCloseHandlerNode, `lastCloseHandlerNode,
          `closeNodes
      modifies `Repr, Repr
      ensures Valid() && fresh(Repr - old(Repr))
      ensures Views(openNodes) == old(Views(openNodes)) + OwnHooks(h).open
      ensures Views(closeNodes) == old(Views(closeNodes)) + OwnHooks(h).close
    {
      if h.Object? && h.opens { AddOpenNode([h]); }
      if h.Object? && h.closes { AddCloseNode([h]); }
    }

    /** One bound handler: its hooks, and its descriptors if it is a router. */
    method BindHandler(isPublic: bool, path: string, h: Argument) returns (panic: Option<string>)
      requires Valid()
      modifies this, Repr
      ensures Valid() && fresh(Repr - old(Repr))
      ensures Contents() == Extended(old(Contents()), Binding(compiler, isPublic, path, h))
      ensures panic == Binding(compiler, isPublic, path, h).panic
    {
      ghost var before := Contents();
      BindingExtends(compiler, before, isPublic, path, h);
      HookUp(h);
      panic := DescribeMounted(isPublic, path, h);
    }

    method DescribeMounted(isPublic: bool, path: string, h: Argument) returns (panic: Option<string>)
      requires Valid()
      modifies `routeDescriptorMap, `routeDescriptors
      ensures Valid()
      ensures routeDescriptors == AddAll(old(routeDescriptors), Binding(compiler, isPublic, path, h).requests)
      ensures panic == Binding(compiler, isPublic, path, h).panic
    {
      BindingParts(compiler, isPublic, path, h);
      if h.Object? && h.router.Some? {
        if isPublic { return Some(PUBLIC_ROUTER); }
        panic := DescribeBelow(TrimSuffix(path, ANYTHING_BELOW), h.router.value);
      } else {
        panic := None;
      }
    }

    /** One turn of the loop over the handlers of a bind. */
    method BindNext(isPublic: bool, path: string, handlers: seq<Argument>, i: nat, ghost stages: seq<Stage>)
      returns (panic: Option<string>)
      requires Valid() && Staged(compiler, isPublic, path, handlers, stages)
      requires i < |handlers| && Contents() == stages[i].before
      requires StopsAt(stages, i, None)
      modifies this, Repr
      ensures Valid() && fresh(Repr - old(Repr)) && Contents() == stages[i + 1].before && StopsAt(stages, i + 1, panic)
    {
      assert StageOk(compiler, isPublic, path, handlers, stages, i);
      panic := BindHandler(isPublic, path, handlers[i]);
    }

    /** The loop over the handlers of a bind: it goes through the stages up to the first that panics. */
    method BindHandlers(isPublic: bool, path: string, handlers: seq<Argument>, ghost stages: seq<Stage>)
      returns (panic: Option<string>, ghost turns: nat)
      requires Valid() && Staged(compiler, isPublic, path, handlers, stages) && Contents() == stages[0].before
      modifies this, Repr
      ensures Valid() && fresh(Repr - old(Repr)) && StopsAt(stages, turns, panic)
      ensures (panic.None? ==> turns == |handlers|)
      ensures Contents() == stages[turns].before
    {
      panic, turns := None, 0;
      var i := 0;
      while i < |handlers| && panic.None?
        invariant Valid() && fresh(Repr - old(Repr)) && turns == i <= |handlers| && StopsAt(stages, turns, panic)
        invariant Contents() == stages[turns].before
      {
        panic := BindNext(isPublic, path, handlers, i, stages);
        i, turns := i + 1, turns + 1;
      }
    }

    method DescribeRoute(isPublic: bool, path: string, metadata: Option<nat>)
      requires Valid()
      modifies `routeDescriptorMap, `routeDescriptors
      ensures Valid() && Contents() == Extended(old(Contents()), Requested(isPublic, path, metadata))
    {
      RequestedExtends(Contents(), isPublic, path, metadata);
      if isPublic { AddRouteDescriptor(RouteDescriptor(path, metadata)); }
    }

    method AppendBound(path: string, handlers: seq<Argument>)
      requires Valid()
      modifies this, Repr
      ensures Valid() && fresh(Repr - old(Repr)) && Contents() == Extended(old(Contents()), Appended(path, handlers))
    {
      AppendedExtends(Contents(), path, handlers);
      AddHandlerNode(path, handlers);
    }

    /** What the handlers of a bind bring, all of them or up to the first that panics. */
    method BindEach(isPublic: bool, path: string, handlers: seq<Argument>) returns (panic: Option<string>)
      requires Valid()
      modifies this, Repr
      ensures Valid() && fresh(Repr - old(Repr))
      ensures Contents() == Extended(old(Contents()), Bindings(compiler, isPublic, path, handlers))
      ensures panic == Bindings(compiler, isPublic, path, handlers).panic
    {
      ghost var stages := StagesOf(compiler, Contents(), isPublic, path, handlers);
      ghost var turns;
      panic, turns := BindHandlers(isPublic, path, handlers, stages);
      StagesEnd(compiler, old(Contents()), isPublic, path, handlers, stages, turns, panic);
    }

    /** What the handlers of a bind bring, and then its node. */
    method BindWithNode(isPublic: bool, path: string, handlers: seq<Argument>) returns (panic: Option<string>)
      requires Valid()
      modifies this, Repr
      ensures Valid() && fresh(Repr - old(Repr))
      ensures var bound := Extended(old(Contents()), Bindings(compiler, isPublic, path, handlers));
              Contents() == if panic.Some? then bound else Extended(bound, Appended(path, handlers))
      ensures panic == Bindings(compiler, isPublic, path, handlers).panic
    {
      panic := BindEach(isPublic, path, handlers);
      if panic.None? { AppendBound(path, handlers); }
    }

    /** The registering part of a bind, once its arguments are in order. */
    method BindAll(isPublic: bool, path: string, handlers: seq<Argument>, metadata: Option<nat>)
      returns (panic: Option<string>)
      requires Valid()
      modifies this, Repr
      ensures Valid() && fresh(Repr - old(Repr))
      ensures var started := Extended(Extended(old(Contents()), Requested(isPublic, path, metadata)),
                                      Bindings(compiler, isPublic, path, handlers));
              Contents() == if panic.Some? then started else Extended(started, Appended(path, handlers))
      ensures panic == Bindings(compiler, isPublic, path, handlers).panic
    {
      DescribeRoute(isPublic, path, metadata);
      panic := BindWithNode(isPublic, path, handlers);
    }

    /** Checks the arguments and the pattern, and registers them. */
    method BindChecked(isPublic: bool, path: string, arguments: seq<Argument>) returns (panic: Option<string>)
      requires Valid()
      modifies this, Repr
      ensures Valid() && fresh(Repr - old(Repr))
      ensures Contents() == Extended(old(Contents()), Registration.Bind(compiler, isPublic, path, arguments))
      ensures panic == Registration.Bind(compiler, isPublic, path, arguments).panic
    {
      NothingMore(Contents());
      var handlers, metadata := Sorted(arguments);
      if |handlers| == 0 { return Some(NO_HANDLERS); }
      var ok := AllAccepted(handlers, NormalBind);
      if !ok { return Some(INVALID_HANDLER); }
      if !Compiles(compiler, path) { return Some(INVALID_PATTERN); }
      BindParts(compiler, Contents(), isPublic, path, arguments);
      panic := BindAll(isPublic, path, handlers, metadata);
    }

    /** Registers handlers under a pattern. A panic is returned; what was registered before it stays. */
    method BindPath(isPublic: bool, path: string, arguments: seq<Argument>) returns (panic: Option<string>)
      requires Valid()
      modifies this, Repr
      ensures Valid() && fresh(Repr - old(Repr))
      ensures Contents() == Extended(old(Contents()), Registration.Bind(compiler, isPublic, path, arguments))
      ensures panic == Registration.Bind(compiler, isPublic, path, arguments).panic
      ensures panic.None? ==> Appends(old(Contents()), Contents(), path, arguments)
    {
      panic := BindChecked(isPublic, path, arguments);
      if panic.None? { BindAppends(compiler, old(Contents()), isPublic, path, arguments); }
    }

    method Bind(path: string, arguments: seq<Argument>) returns (panic: Option<string>)
      requires Valid()
      modifies this, Repr
      ensures Valid() && fresh(Repr - old(Repr))
      ensures Contents() == Extended(old(Contents()), EffectOf(compiler, CallBind(path, arguments)))
      ensures panic == EffectOf(compiler, CallBind(path, arguments)).panic
      ensures panic.None? ==> Appends(old(Contents()), Contents(), path, arguments)
    {
      panic := BindPath(false, path, arguments);
    }

    method PublicBind(path: string, arguments: seq<Argument>) returns (panic: Option<string>)
      requires Valid()
      modifies this, Repr
      ensures Valid() && fresh(Repr - old(Repr))
      ensures Contents() == Extended(old(Contents()), EffectOf(compiler, CallPublicBind(path, arguments)))
      ensures panic == EffectOf(compiler, CallPublicBind(path, arguments)).panic
      ensures panic.None? ==> Appends(old(Contents()), Contents(), path, arguments)
    {
      panic := BindPath(true, path, arguments);
    }

    method Use(mount: Option<string>, arguments: seq<Argument>) returns (panic: Option<string>)
      requires Valid()
      modifies this, Repr
      ensures Valid() && fresh(Repr - old(Repr))
      ensures Contents() == Extended(old(Contents()), EffectOf(compiler, CallUse(mount, arguments)))
      ensures panic == EffectOf(compiler, CallUse(mount, arguments)).panic
      ensures panic.None? && mount.None? ==> Appends(old(Contents()), Contents(), "/**", arguments)
    {
      var mountPath := "/**";
      if mount.Some? {
        var custom := mount.value;
        if !HasSuffix(custom, "/**") { custom := TrimSuffix(custom, "/") + "/**"; }
        mountPath := custom;
      }
      panic := BindPath(false, mountPath, arguments);
    }
  }

  /** Splits what is passed to a bind into handlers and the last metadata. */
  method Sorted(arguments: seq<Argument>) returns (handlers: seq<Argument>, metadata: Option<nat>)
    ensures handlers == Handlers(arguments) && metadata == MetadataOf(arguments)
  {
    handlers, metadata := [], None;
    var i := 0;
    while i < |arguments|
      invariant i <= |arguments| && handlers == Handlers(arguments[..i]) && metadata == MetadataOf(arguments[..i])
    {
      assert arguments[..i + 1][..i] == arguments[..i];
      if arguments[i].Metadata? { metadata := Some(arguments[i].value); }
      if !IsOption(arguments[i]) { handlers := handlers + [arguments[i]]; }
      i := i + 1;
    }
    assert arguments[..i] == arguments;
  }

  method AllAccepted(handlers: seq<Argument>, bindType: BindType) returns (ok: bool)
    ensures ok <==> forall h :: h in handlers ==> Accepted(h, bindType)
  {
    var i := 0;
    while i < |handlers|
      invariant i <= |handlers| && forall h :: h in handlers[..i] ==> Accepted(h, bindType)
    {
      if !Accepted(handlers[i], bindType) { return false; }
      i := i + 1;
    }
    assert handlers[..i] == handlers;
    ok := true;
  }
}
