/** What one registration call does with its arguments: which of them become handlers and in which order, which metadata
    counts, when it panics and why, and what each handler brings of its own. */
module RegistrationCalls {
  import opened Wrappers
  import opened Chain
  import opened Mounts
  import opened Registration

  // ---- Arguments

  predicate NoOption(a: Argument) {
    a.Function? || a.Object? || a.Mistake?
  }

  lemma {:induction false} HandlersAppend(a: seq<Argument>, b: seq<Argument>)
    ensures Handlers(a + b) == Handlers(a) + Handlers(b)
    decreases |b|
  {
    if |b| == 0 {
      assert a + b == a && Handlers(a) + [] == Handlers(a);
    } else {
      var n := |b| - 1;
      assert (a + b)[..|a| + n] == a + b[..n] && (a + b)[|a| + n] == b[n];
      HandlersAppend(a, b[..n]);
    }
  }

  lemma {:induction false} HandlerOfOne(a: Argument)
    ensures Handlers([a]) == if NoOption(a) then [a] else []
  {
    assert [a][..0] == [] && [] + [a] == [a];
  }

  /** Where the handlers stand among the arguments: in their order, and nothing but the options is left out. */
  ghost predicate OptionsLeftOut(arguments: seq<Argument>, handlers: seq<Argument>, at: seq<int>) {
    && |at| == |handlers|
    && (forall k :: 0 <= k < |at| ==> 0 <= at[k] < |arguments| && handlers[k] == arguments[at[k]])
    && (forall k, l :: 0 <= k < l < |at| ==> at[k] < at[l])
    && (forall i :: 0 <= i < |arguments| ==> (i in at <==> NoOption(arguments[i])))
  }

  lemma {:induction false} HandlersInOrder(arguments: seq<Argument>) returns (at: seq<int>)
    ensures OptionsLeftOut(arguments, Handlers(arguments), at)
    decreases |arguments|
  {
    if |arguments| == 0 {
      at := [];
    } else {
      var n := |arguments| - 1;
      var before := HandlersInOrder(arguments[..n]);
      at := if NoOption(arguments[n]) then before + [n] else before;
      LeftOutNext(arguments, Handlers(arguments[..n]), before);
    }
  }

  lemma {:induction false} LeftOutNext(arguments: seq<Argument>, earlier: seq<Argument>, before: seq<int>)
    requires |arguments| > 0 && OptionsLeftOut(arguments[..|arguments| - 1], earlier, before)
    ensures var n := |arguments| - 1;
            if NoOption(arguments[n]) then OptionsLeftOut(arguments, earlier + [arguments[n]], before + [n])
            else OptionsLeftOut(arguments, earlier, before)
  {
    var n := |arguments| - 1;
    forall k | 0 <= k < |before| ensures 0 <= before[k] < n && earlier[k] == arguments[before[k]] {
      assert earlier[k] == arguments[..n][before[k]];
    }
    forall i | 0 <= i < n ensures i in before <==> NoOption(arguments[i]) {
      assert i in before <==> NoOption(arguments[..n][i]);
    }
    assert n !in before;
    if NoOption(arguments[n]) { OneMoreLeftIn(arguments, earlier, before); }
  }

  lemma {:induction false} OneMoreLeftIn(arguments: seq<Argument>, earlier: seq<Argument>, before: seq<int>)
    requires |arguments| > 0 && NoOption(arguments[|arguments| - 1]) && |before| == |earlier|
    requires forall k :: 0 <= k < |before| ==> 0 <= before[k] < |arguments| - 1 && earlier[k] == arguments[before[k]]
    requires forall k, l :: 0 <= k < l < |before| ==> before[k] < before[l]
    requires forall i :: 0 <= i < |arguments| - 1 ==> (i in before <==> NoOption(arguments[i]))
    ensures OptionsLeftOut(arguments, earlier + [arguments[|arguments| - 1]], before + [|arguments| - 1])
  {
    var n, at := |arguments| - 1, before + [|arguments| - 1];
    forall i | 0 <= i < |arguments| ensures i in at <==> NoOption(arguments[i]) {
      if i == n { assert at[|before|] == n; }
    }
  }

  /** Without options the handlers are the arguments. */
  lemma {:induction false} ArgumentsAreHandlers(arguments: seq<Argument>)
    requires forall a :: a in arguments ==> NoOption(a)
    ensures Handlers(arguments) == arguments
    decreases |arguments|
  {
    if |arguments| > 0 {
      var n := |arguments| - 1;
      ArgumentsAreHandlers(arguments[..n]);
      assert arguments == arguments[..n] + [arguments[n]] && arguments[n] in arguments;
    }
  }

  /** The last metadata given counts, whatever stands around it. */
  lemma {:induction false} LastMetadataCounts(before: seq<Argument>, value: nat, after: seq<Argument>)
    requires forall a :: a in after ==> !a.Metadata?
    ensures MetadataOf(before + [Metadata(value)] + after) == Some(value)
    decreases |after|
  {
    var all, n := before + [Metadata(value)] + after, |before| + |after|;
    if |after| > 0 {
      assert all[n] == after[|after| - 1] && all[..n] == before + [Metadata(value)] + after[..|after| - 1];
      LastMetadataCounts(before, value, after[..|after| - 1]);
    } else {
      assert all[n] == Metadata(value);
    }
  }

  lemma {:induction false} NoMetadataGiven(arguments: seq<Argument>)
    requires forall a :: a in arguments ==> !a.Metadata?
    ensures MetadataOf(arguments) == None
    decreases |arguments|
  {
    if |arguments| > 0 { NoMetadataGiven(arguments[..|arguments| - 1]); }
  }

  // ---- What a handler brings

  /** An open node and a close node for a handler of those interfaces, in the order of the handlers. */
  function OpenNodes(handlers: seq<Argument>): seq<NodeView> {
    if |handlers| == 0 then []
    else
      (match handlers[0]
       case Object(_, _, true, _, _) => [NodeView(OpenBind, None, [handlers[0]])]
       case _ => [])
      + OpenNodes(handlers[1..])
  }

  function CloseNodes(handlers: seq<Argument>): seq<NodeView> {
    if |handlers| == 0 then []
    else
      (match handlers[0]
       case Object(_, _, _, true, _) => [NodeView(CloseBind, None, [handlers[0]])]
       case _ => [])
      + CloseNodes(handlers[1..])
  }

  lemma {:induction false} BindingsBringHooks(compiler: Compiler, isPublic: bool, path: string, handlers: seq<Argument>)
    requires Bindings(compiler, isPublic, path, handlers).panic.None?
    ensures var e := Bindings(compiler, isPublic, path, handlers);
            e.normal == [] && e.open == OpenNodes(handlers) && e.close == CloseNodes(handlers)
    decreases |handlers|
  {
    if |handlers| > 0 {
      BindingParts(compiler, isPublic, path, handlers[0]);
      BindingsBringHooks(compiler, isPublic, path, handlers[1..]);
    }
  }

  /** Whether a handler can stand in a list of this bind type. */
  predicate Fits(a: Argument, bindType: BindType) {
    || a.Function?
    || (a.Object? && bindType.NormalBind? && a.handles)
    || (a.Object? && bindType.OpenBind? && a.opens)
    || (a.Object? && bindType.CloseBind? && a.closes)
  }

  /** A bind that does not panic adds one node, of all arguments but the options in their order, under the pattern;
      for each handler that opens or closes a node of its own; and, if public, asks first for a descriptor of the
      route. */
  lemma {:induction false} BindAdds(compiler: Compiler, isPublic: bool, path: string, arguments: seq<Argument>)
    requires Bind(compiler, isPublic, path, arguments).panic.None?
    ensures var e, handlers := Bind(compiler, isPublic, path, arguments), Handlers(arguments);
            && e.normal == [NodeView(NormalBind, Some(path), handlers)]
            && e.open == OpenNodes(handlers) && e.close == CloseNodes(handlers)
            && |handlers| > 0 && (forall h :: h in handlers ==> Fits(h, NormalBind)) && compiler(path)
            && (isPublic ==> e.requests == [RouteDescriptor(path, MetadataOf(arguments))]
                             && forall h :: h in handlers && h.Object? ==> h.router.None?)
  {
    var handlers := Handlers(arguments);
    assert Compiles(compiler, path);
    var bound := Bindings(compiler, isPublic, path, handlers);
    BindingsBringHooks(compiler, isPublic, path, handlers);
    forall h | h in handlers ensures Fits(h, NormalBind) { assert Accepted(h, NormalBind); }
    if isPublic { PublicBindsNoRouter(compiler, path, handlers); }
    assert [] + ([] + [NodeView(NormalBind, Some(path), handlers)]) == [NodeView(NormalBind, Some(path), handlers)];
    assert [] + (bound.open + []) == bound.open && [] + (bound.close + []) == bound.close;
    if isPublic {
      var first := [RouteDescriptor(path, MetadataOf(arguments))];
      assert first + ([] + []) == first;
    }
  }

  lemma {:induction false} PublicBindsNoRouter(compiler: Compiler, path: string, handlers: seq<Argument>)
    requires Bindings(compiler, true, path, handlers).panic.None?
    ensures Bindings(compiler, true, path, handlers).requests == []
    ensures forall h :: h in handlers && h.Object? ==> h.router.None?
    decreases |handlers|
  {
    if |handlers| > 0 {
      BindingParts(compiler, true, path, handlers[0]);
      PublicBindsNoRouter(compiler, path, handlers[1..]);
    }
  }

  /** A bind panics before it adds anything, exactly if it is given no handler, or one that does not handle messages,
      or a pattern that does not compile, and says so, the first of these that applies. */
  lemma {:induction false} BindRefuses(compiler: Compiler, isPublic: bool, path: string, arguments: seq<Argument>)
    ensures var e := Bind(compiler, isPublic, path, arguments);
            if forall a :: a in arguments ==> !NoOption(a) then
              e == Effect([], [], [], [], Some("no handlers provided"))
            else if exists a :: a in arguments && NoOption(a) && !Fits(a, NormalBind) then
              e == Effect([], [], [], [], Some("invalid handler type"))
            else if !compiler(path) then e == Effect([], [], [], [], Some("invalid route pattern"))
            else e.panic != Some("no handlers provided") && e.panic != Some("invalid handler type")
  {
    var handlers := Handlers(arguments);
    HandlersFit(arguments);
    assert Compiles(compiler, path) <==> compiler(path);
    if |handlers| > 0 && (forall h :: h in handlers ==> Accepted(h, NormalBind)) && compiler(path) {
      BindingsPanicOtherwise(compiler, isPublic, path, handlers);
    }
  }

  lemma {:induction false} HandlersFit(arguments: seq<Argument>)
    ensures |Handlers(arguments)| == 0 <==> forall a :: a in arguments ==> !NoOption(a)
    ensures (exists h :: h in Handlers(arguments) && !Accepted(h, NormalBind)) <==>
              exists a :: a in arguments && NoOption(a) && !Fits(a, NormalBind)
  {
    var at := HandlersInOrder(arguments);
    SameArguments(arguments, Handlers(arguments), at);
    assert forall h :: h in Handlers(arguments) ==> (Accepted(h, NormalBind) <==> Fits(h, NormalBind));
  }

  /** What is a handler, and what is an argument that is no option, are the same. */
  lemma {:induction false} SameArguments(arguments: seq<Argument>, handlers: seq<Argument>, at: seq<int>)
    requires OptionsLeftOut(arguments, handlers, at)
    ensures forall a :: a in handlers <==> a in arguments && NoOption(a)
    ensures |handlers| == 0 <==> forall a :: a in arguments ==> !NoOption(a)
  {
    forall a | a in arguments && NoOption(a) ensures a in handlers {
      var i :| 0 <= i < |arguments| && arguments[i] == a;
      assert i in at;
      var k :| 0 <= k < |at| && at[k] == i;
      assert handlers[k] == a;
    }
    if |handlers| > 0 { assert handlers[0] == arguments[at[0]] && at[0] in at; }
  }

  lemma {:induction false} BindingsPanicOtherwise(compiler: Compiler, isPublic: bool, path: string,
                                                  handlers: seq<Argument>)
    ensures var panic := Bindings(compiler, isPublic, path, handlers).panic;
            panic == None || panic == Some(PUBLIC_ROUTER) || panic == Some("invalid route pattern")
    decreases |handlers|
  {
    if |handlers| > 0 {
      BindingParts(compiler, isPublic, path, handlers[0]);
      var h := handlers[0];
      if h.Object? && h.router.Some? {
        NestedPanics(compiler, TrimSuffix(path, ANYTHING_BELOW), h.router.value);
      }
      BindingsPanicOtherwise(compiler, isPublic, path, handlers[1..]);
    }
  }

  /** A mounted router panics exactly if one of its descriptors does not compile below the mount. */
  lemma {:induction false} NestedPanics(compiler: Compiler, mountPath: string, nested: seq<RouteDescriptor>)
    ensures NestedRequests(compiler, mountPath, nested).panic
            == if exists d :: d in nested && !compiler(mountPath + d.pattern) then Some("invalid route pattern")
                else None
    decreases |nested|
  {
    if |nested| > 0 {
      NestedPanics(compiler, mountPath, nested[1..]);
      assert forall d :: d in nested <==> d == nested[0] || d in nested[1..];
      assert Compiles(compiler, mountPath + nested[0].pattern) <==> compiler(mountPath + nested[0].pattern);
    }
  }

  /** UseOpen and UseClose add one node of all their handlers to their list, or panic and add nothing. */
  lemma {:induction false} HooksAdd(handlers: seq<Argument>)
    ensures Hooks(handlers, OpenBind)
            == if handlers == [] then Effect([], [], [], [], Some("no handlers provided"))
               else if forall h :: h in handlers ==> Fits(h, OpenBind)
               then Effect([], [NodeView(OpenBind, None, handlers)], [], [], None)
               else Effect([], [], [], [], Some("invalid handler type"))
    ensures Hooks(handlers, CloseBind)
            == if handlers == [] then Effect([], [], [], [], Some("no handlers provided"))
               else if forall h :: h in handlers ==> Fits(h, CloseBind)
               then Effect([], [], [NodeView(CloseBind, None, handlers)], [], None)
               else Effect([], [], [], [], Some("invalid handler type"))
  {
    assert forall h :: h in handlers ==> (Accepted(h, OpenBind) <==> Fits(h, OpenBind));
    assert forall h :: h in handlers ==> (Accepted(h, CloseBind) <==> Fits(h, CloseBind));
  }

  /** Use binds under everything below the mount, which is everything if none is given. */
  lemma {:induction false} UseBinds(compiler: Compiler, arguments: seq<Argument>, path: string, written: string)
    requires |path| > 0 ==> path[|path| - 1] != '/' && path[|path| - 1] != '*'
    requires written in [path, path + "/", path + "/**"]
    ensures EffectOf(compiler, CallUse(None, arguments)) == Bind(compiler, false, "/**", arguments)
    ensures EffectOf(compiler, CallUse(Some(written), arguments)) == Bind(compiler, false, path + "/**", arguments)
    ensures EffectOf(compiler, CallBind(path, arguments)) == Bind(compiler, false, path, arguments)
    ensures EffectOf(compiler, CallPublicBind(path, arguments)) == Bind(compiler, true, path, arguments)
    ensures EffectOf(compiler, CallUseOpen(arguments)) == Hooks(arguments, OpenBind)
    ensures EffectOf(compiler, CallUseClose(arguments)) == Hooks(arguments, CloseBind)
  {
    MountPathOfPath(path, written);
  }
}
