/**
 * Sequences of calls to one cached setter: what they emit in total, and how that
 * relates to how often the requested value actually changes.
 */
module CallSequences {
  import opened GLTypes
  import opened GLState

  /** How many requests in `reqs` differ from the value cached just before them. */
  function Changes<T(==)>(init: T, reqs: seq<T>): nat
    decreases |reqs|
  {
    if reqs == [] then 0
    else (if reqs[0] != init then 1 else 0) + Changes(reqs[0], reqs[1..])
  }

  /**
   * The command lists that successive calls of a cached setter emit, one per call,
   * starting from cached value `init`; every call leaves its request in the cache.
   */
  function Replay<T>(emit: (T, T) -> seq<Cmd>, init: T, reqs: seq<T>): (calls: seq<seq<Cmd>>)
    ensures |calls| == |reqs|
    decreases |reqs|
  {
    if reqs == [] then [] else [emit(init, reqs[0])] + Replay(emit, reqs[0], reqs[1..])
  }

  /** How many calls reached the device at all. */
  function Emitting(calls: seq<seq<Cmd>>): nat
    decreases |calls|
  {
    if calls == [] then 0 else (if calls[0] != [] then 1 else 0) + Emitting(calls[1..])
  }

  /** All the commands of successive calls, in order. */
  function Flatten(calls: seq<seq<Cmd>>): seq<Cmd>
    decreases |calls|
  {
    if calls == [] then [] else calls[0] + Flatten(calls[1..])
  }

  /** The number of glDepthMask calls in a command list. */
  function CountDepthMasks(cmds: seq<Cmd>): nat
    decreases |cmds|
  {
    if cmds == [] then 0 else (if cmds[0].DepthMask? then 1 else 0) + CountDepthMasks(cmds[1..])
  }

  lemma {:induction false} CountDepthMasksAppend(a: seq<Cmd>, b: seq<Cmd>)
    ensures CountDepthMasks(a + b) == CountDepthMasks(a) + CountDepthMasks(b)
    decreases |a|
  {
    if a == [] {
      assert a + b == b;
    } else {
      assert (a + b)[1..] == a[1..] + b;
      CountDepthMasksAppend(a[1..], b);
    }
  }

  /**
   * For any setter that emits nothing exactly when the request equals the cache,
   * the number of calls that reach the device equals the number of value changes.
   */
  lemma {:induction false} DeviceCallsEqualChanges<T>(emit: (T, T) -> seq<Cmd>, init: T, reqs: seq<T>)
    requires forall a: T, b: T :: emit(a, b) == [] <==> a == b
    ensures Emitting(Replay(emit, init, reqs)) == Changes(init, reqs)
    decreases |reqs|
  {
    if reqs != [] {
      var calls := Replay(emit, init, reqs);
      assert calls[1..] == Replay(emit, reqs[0], reqs[1..]);
      DeviceCallsEqualChanges(emit, reqs[0], reqs[1..]);
    }
  }

  /**
   * Over any sequence of calls of setBlend, setDepthMode, setDepthWrite or attachUBO,
   * redundant calls reach the device zero times and every change reaches it once.
   */
  lemma EverySetterEmitsOncePerChange(
    blend0: BlendMode, blends: seq<BlendMode>,
    depth0: DepthMode, depths: seq<DepthMode>,
    write0: bool, writes: seq<bool>,
    ubo0: u32, ubos: seq<u32>)
    ensures Emitting(Replay(BlendCmds, blend0, blends)) == Changes(blend0, blends)
    ensures Emitting(Replay(DepthModeCmds, depth0, depths)) == Changes(depth0, depths)
    ensures Emitting(Replay(DepthWriteCmds, write0, writes)) == Changes(write0, writes)
    ensures Emitting(Replay(AttachUBOCmds, ubo0, ubos)) == Changes(ubo0, ubos)
  {
    DeviceCallsEqualChanges(BlendCmds, blend0, blends);
    DeviceCallsEqualChanges(DepthModeCmds, depth0, depths);
    DeviceCallsEqualChanges(DepthWriteCmds, write0, writes);
    DeviceCallsEqualChanges(AttachUBOCmds, ubo0, ubos);
  }

  /**
   * Over any sequence of setDepthWrite calls, the number of glDepthMask calls
   * equals the number of times the requested flag changes.
   */
  lemma {:induction false} DepthMaskCountEqualsChanges(init: bool, reqs: seq<bool>)
    ensures CountDepthMasks(Flatten(Replay(DepthWriteCmds, init, reqs))) == Changes(init, reqs)
    decreases |reqs|
  {
    if reqs != [] {
      var calls := Replay(DepthWriteCmds, init, reqs);
      assert calls[1..] == Replay(DepthWriteCmds, reqs[0], reqs[1..]);
      CountDepthMasksAppend(calls[0], Flatten(calls[1..]));
      DepthMaskCountEqualsChanges(reqs[0], reqs[1..]);
      if reqs[0] != init {
        assert calls[0] == [DepthMask(reqs[0])];
        assert CountDepthMasks(calls[0]) == 1 by {
          assert calls[0][1..] == [];
        }
      }
    }
  }

  /** Two calls in a row: the second starts from the value the first left cached. */
  lemma ReplayTwo<T>(emit: (T, T) -> seq<Cmd>, init: T, first: T, second: T)
    ensures Flatten(Replay(emit, init, [first, second])) == emit(init, first) + emit(first, second)
  {
    assert [first, second][1..] == [second];
    assert [second][1..] == [];
    assert Replay(emit, second, []) == [];
    assert Replay(emit, first, [second]) == [emit(first, second)];
    var calls := Replay(emit, init, [first, second]);
    assert calls == [emit(init, first)] + Replay(emit, first, [second]);
    assert calls[1..] == [emit(first, second)];
    assert calls[1..][1..] == [];
    assert Flatten(calls[1..]) == emit(first, second) + [];
  }

  /** attachUBO(u) twice in a row binds at most once. */
  lemma AttachUBOTwiceBindsOnce(current: u32, u: u32)
    ensures Flatten(Replay(AttachUBOCmds, current, [u, u]))
      == if current == u then [] else [BindBuffer(UniformBuffer, u)]
  {
    ReplayTwo(AttachUBOCmds, current, u, u);
  }

  /**
   * Two consecutive draws that both ask for alpha blending, starting from no
   * blending: blending is enabled once and the blend function set once. If the
   * second asks for additive blending instead, only a second glBlendFunc follows.
   */
  lemma ConsecutiveBlendRequests()
    ensures Flatten(Replay(BlendCmds, BlendNone, [BlendAlpha, BlendAlpha]))
      == [Enable(Blend), BlendFunc(SrcAlpha, OneMinusSrcAlpha)]
    ensures Flatten(Replay(BlendCmds, BlendNone, [BlendAlpha, BlendAdditive]))
      == [Enable(Blend), BlendFunc(SrcAlpha, OneMinusSrcAlpha), BlendFunc(One, One)]
  {
    ReplayTwo(BlendCmds, BlendNone, BlendAlpha, BlendAlpha);
    ReplayTwo(BlendCmds, BlendNone, BlendAlpha, BlendAdditive);
    BlendTransitions(BlendNone, BlendAlpha);
    BlendTransitions(BlendAlpha, BlendAdditive);
  }
}
