/** One pass of the server's main loop: accept at most one new client and
append its handler, then update every handler once, in list order, and drop
the handlers whose client is no longer connected, keeping the others in
their order.

Accepting, the clock, the connection state and the sample data are inputs
of the pass; the pause between passes and the endless repetition are not
modelled.
 */
module Server {
  import opened Wire
  import opened Catalog
  import opened Session

  /** A client accepted in this pass, and the time its handler is created. */
  datatype Accepted = Accepted(client: nat, createdAt: real)

  /** What one handler meets during the pass: the messages its update
      drains, the time its tick reads, the sample data it would generate,
      and whether its client is still connected after the update. */
  datatype Env = Env(inbound: seq<Inbound>, now: real, snapshot: Native, connected: bool)

  predicate EnvWellFormed(e: Env) {
    AllWellFormed(e.inbound)
  }

  /** The handler list after accepting: the new client's handler, if any,
      goes at the end. */
  function Accept(handlers: seq<Handler>, accepted: Option<Accepted>): (hs: seq<Handler>)
    ensures accepted.None? ==> hs == handlers
    ensures accepted.Some? ==>
      && |hs| == |handlers| + 1
      && hs[..|handlers|] == handlers
      && hs[|handlers|] == NewHandler(accepted.value.client, accepted.value.createdAt)
  {
    match accepted
    case None => handlers
    case Some(a) => handlers + [NewHandler(a.client, a.createdAt)]
  }

  // Keeping the flagged elements of a list ------------------------------------

  /** The elements of `xs` whose flag is set, in their original order. */
  function Keep<T>(xs: seq<T>, keep: seq<bool>): seq<T>
    requires |xs| == |keep|
    decreases |xs|
  {
    if |xs| == 0 then []
    else Keep(xs[..|xs| - 1], keep[..|keep| - 1]) + (if keep[|xs| - 1] then [xs[|xs| - 1]] else [])
  }

  /** Keeping from a concatenation keeps from each part: what is kept from
      the front stays in front of what is kept from the back. */
  lemma {:induction false} KeepAppend<T>(xs: seq<T>, ys: seq<T>, kx: seq<bool>, ky: seq<bool>)
    requires |xs| == |kx| && |ys| == |ky|
    ensures Keep(xs + ys, kx + ky) == Keep(xs, kx) + Keep(ys, ky)
    decreases |ys|
  {
    if |ys| == 0 {
      assert xs + ys == xs && kx + ky == kx;
    } else {
      var n := |ys| - 1;
      assert (xs + ys)[..|xs + ys| - 1] == xs + ys[..n];
      assert (kx + ky)[..|kx + ky| - 1] == kx + ky[..n];
      KeepAppend(xs, ys[..n], kx, ky[..n]);
    }
  }

  /** An element is kept exactly when it sits at a flagged position. */
  lemma {:induction false} KeepMembers<T>(xs: seq<T>, keep: seq<bool>, x: T)
    requires |xs| == |keep|
    ensures x in Keep(xs, keep) <==> exists i :: 0 <= i < |xs| && keep[i] && xs[i] == x
    decreases |xs|
  {
    if |xs| > 0 {
      var n := |xs| - 1;
      KeepMembers(xs[..n], keep[..n], x);
      if x in Keep(xs[..n], keep[..n]) {
        var i :| 0 <= i < n && keep[..n][i] && xs[..n][i] == x;
        assert keep[i] && xs[i] == x;
      }
      if exists i :: 0 <= i < |xs| && keep[i] && xs[i] == x {
        var i :| 0 <= i < |xs| && keep[i] && xs[i] == x;
        if i < n {
          assert keep[..n][i] && xs[..n][i] == x;
        }
      }
    }
  }

  /** The number of flags set. */
  function CountSet(keep: seq<bool>): nat
    decreases |keep|
  {
    if |keep| == 0 then 0 else CountSet(keep[..|keep| - 1]) + (if keep[|keep| - 1] then 1 else 0)
  }

  lemma {:induction false} KeepLength<T>(xs: seq<T>, keep: seq<bool>)
    requires |xs| == |keep|
    ensures |Keep(xs, keep)| == CountSet(keep)
    decreases |xs|
  {
    if |xs| > 0 {
      KeepLength(xs[..|xs| - 1], keep[..|keep| - 1]);
    }
  }

  // The pass ------------------------------------------------------------------

  /** What one handler produced during the pass: its state after the
      update, the calls it made, its log, and whether it is erased. */
  datatype Output = Output(handler: Handler, calls: seq<Invocation>, log: seq<Report>, disconnected: bool)

  function OutputOf(h: Handler, e: Env): Output
    requires EnvWellFormed(e)
  {
    var u := Update(h, e.inbound, e.now, e.snapshot);
    Output(u.handler, u.calls, u.log, !e.connected)
  }

  function HandlersOf(outputs: seq<Output>): (hs: seq<Handler>)
    ensures |hs| == |outputs|
    ensures forall i :: 0 <= i < |outputs| ==> hs[i] == outputs[i].handler
  {
    seq(|outputs|, i requires 0 <= i < |outputs| => outputs[i].handler)
  }

  function Connected(outputs: seq<Output>): (c: seq<bool>)
    ensures |c| == |outputs|
    ensures forall i :: 0 <= i < |outputs| ==> c[i] == !outputs[i].disconnected
  {
    seq(|outputs|, i requires 0 <= i < |outputs| => !outputs[i].disconnected)
  }

  /** The erase loop of a pass: walk the list with a position that either
      steps past an element whose flag is set or erases the element in
      place. */
  method WalkAndErase<T>(xs: seq<T>, keep: seq<bool>) returns (ys: seq<T>)
    requires |xs| == |keep|
    ensures ys == Keep(xs, keep)
  {
    var list := xs;
    var pos := 0;
    var i := 0;
    while pos < |list|
      invariant 0 <= i <= |xs|
      invariant list == Keep(xs[..i], keep[..i]) + xs[i..]
      invariant pos == |Keep(xs[..i], keep[..i])|
      decreases |list| - pos
    {
      assert list[pos] == xs[i];
      assert xs[..i + 1][..i] == xs[..i] && keep[..i + 1][..i] == keep[..i];
      if keep[i] {
        pos := pos + 1;
      } else {
        list := list[..pos] + list[pos + 1..];
      }
      i := i + 1;
    }
    ys := list;
    assert xs[..i] == xs && keep[..i] == keep;
  }

  /** One pass: every handler (the newly accepted one last) is updated once,
      in list order, producing its calls and log; then the handlers whose
      client is gone are erased. */
  method ServePass(handlers: seq<Handler>, accepted: Option<Accepted>, envs: seq<Env>)
    returns (survivors: seq<Handler>, outputs: seq<Output>)
    requires |envs| == |Accept(handlers, accepted)|
    requires forall i :: 0 <= i < |envs| ==> EnvWellFormed(envs[i])
    ensures var all := Accept(handlers, accepted);
      && |outputs| == |all|
      && (forall i :: 0 <= i < |all| ==> outputs[i] == OutputOf(all[i], envs[i]))
    ensures survivors == Keep(HandlersOf(outputs), Connected(outputs))
  {
    var all := Accept(handlers, accepted);
    outputs := [];
    for i := 0 to |all|
      invariant |outputs| == i
      invariant forall k :: 0 <= k < i ==> outputs[k] == OutputOf(all[k], envs[k])
    {
      outputs := outputs + [OutputOf(all[i], envs[i])];
    }
    survivors := WalkAndErase(HandlersOf(outputs), Connected(outputs));
  }

  /** What a pass promises about the list: the survivors are the updated
      handlers whose client is connected, in the order they were in; there
      are as many as there are connected clients; and when the handler
      updated last (the newest) keeps its client, it is still last. */
  lemma PassKeepsOrder(outputs: seq<Output>, h: Handler)
    ensures var survivors := Keep(HandlersOf(outputs), Connected(outputs));
      && |survivors| == CountSet(Connected(outputs))
      && (h in survivors <==> exists i :: 0 <= i < |outputs| && !outputs[i].disconnected && outputs[i].handler == h)
      && (|outputs| > 0 && !outputs[|outputs| - 1].disconnected ==>
            survivors[|survivors| - 1] == outputs[|outputs| - 1].handler)
  {
    var hs := HandlersOf(outputs);
    var cs := Connected(outputs);
    KeepLength(hs, cs);
    KeepMembers(hs, cs, h);
  }
}
