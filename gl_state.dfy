/**
 * The cached pieces of OpenGL state that OpenGLRenderer sets, the commands its
 * setters issue, and a small model of the device that executes those commands.
 *
 * Each setter is specified here by a function from (cached value, requested value)
 * to the list of OpenGL calls it issues; the class in GLRenderer appends exactly
 * that list to its trace.
 */
module GLState {
  import opened GLTypes

  /** The blending mode a draw asks for. */
  datatype BlendMode = BlendNone | BlendAlpha | BlendAdditive

  /** The depth-test mode a draw asks for. */
  datatype DepthMode = DepthOff | DepthLess

  /** Capabilities toggled with glEnable / glDisable. */
  datatype Capability = Blend | DepthTest

  /** Blend factors of glBlendFunc (the ones the renderer uses, and GL's defaults). */
  datatype BlendFactor = Zero | One | SrcAlpha | OneMinusSrcAlpha

  /** Comparison functions of glDepthFunc. */
  datatype CompareFunc = Never | Less | Equal | LessEqual | Greater | NotEqual | GreaterEqual | Always

  /** Binding targets of glBindBuffer used here. */
  datatype BufferTarget = UniformBuffer

  /** One OpenGL call, as an event of the renderer's trace. */
  datatype Cmd =
    | Enable(cap: Capability)
    | Disable(cap: Capability)
    | BlendFunc(src: BlendFactor, dst: BlendFactor)
    | DepthFunc(func: CompareFunc)
    | DepthMask(flag: bool)
    | BindBuffer(target: BufferTarget, buffer: u32)

  /**
   * The calls setBlend(mode) issues when `current` is cached: glEnable(GL_BLEND)
   * when blending is switched on, then, if the mode changes, the call that
   * selects the new mode.
   */
  function BlendCmds(current: BlendMode, mode: BlendMode): (cmds: seq<Cmd>)
    ensures cmds == [] <==> mode == current
    ensures |cmds| <= 2
  {
    (if mode != BlendNone && current == BlendNone then [Enable(Blend)] else [])
    + (if mode != current then
         match mode
         case BlendNone => [Disable(Blend)]
         case BlendAlpha => [BlendFunc(SrcAlpha, OneMinusSrcAlpha)]
         case BlendAdditive => [BlendFunc(One, One)]
       else [])
  }

  /** The calls setDepthMode(mode) issues when `current` is cached. */
  function DepthModeCmds(current: DepthMode, mode: DepthMode): (cmds: seq<Cmd>)
    ensures cmds == [] <==> mode == current
    ensures |cmds| <= 2
  {
    if mode != current then
      (if current == DepthOff then [Enable(DepthTest)] else [])
      + (match mode
         case DepthOff => [Disable(DepthTest)]
         case DepthLess => [DepthFunc(Less)])
    else []
  }

  /** The calls setDepthWrite(enable) issues when `current` is cached. */
  function DepthWriteCmds(current: bool, enable: bool): (cmds: seq<Cmd>)
    ensures cmds == [] <==> enable == current
    ensures cmds != [] ==> cmds == [DepthMask(enable)]
  {
    if enable != current then [DepthMask(enable)] else []
  }

  /** The calls attachUBO(buffer) issues when `current` is the bound uniform buffer. */
  function AttachUBOCmds(current: u32, buffer: u32): (cmds: seq<Cmd>)
    ensures cmds == [] <==> buffer == current
    ensures cmds != [] ==> cmds == [BindBuffer(UniformBuffer, buffer)]
  {
    if current != buffer then [BindBuffer(UniformBuffer, buffer)] else []
  }

  /** Every transition of setBlend, case by case. */
  lemma BlendTransitions(current: BlendMode, mode: BlendMode)
    ensures current == mode ==> BlendCmds(current, mode) == []
    ensures current == BlendNone && mode == BlendAlpha ==>
      BlendCmds(current, mode) == [Enable(Blend), BlendFunc(SrcAlpha, OneMinusSrcAlpha)]
    ensures current == BlendNone && mode == BlendAdditive ==>
      BlendCmds(current, mode) == [Enable(Blend), BlendFunc(One, One)]
    ensures current == BlendAlpha && mode == BlendAdditive ==>
      BlendCmds(current, mode) == [BlendFunc(One, One)]
    ensures current == BlendAdditive && mode == BlendAlpha ==>
      BlendCmds(current, mode) == [BlendFunc(SrcAlpha, OneMinusSrcAlpha)]
    ensures current != BlendNone && mode == BlendNone ==>
      BlendCmds(current, mode) == [Disable(Blend)]
    ensures Enable(Blend) in BlendCmds(current, mode) <==> current == BlendNone && mode != BlendNone
  {
  }

  /** Every transition of setDepthMode, case by case. */
  lemma DepthModeTransitions(current: DepthMode, mode: DepthMode)
    ensures current == mode ==> DepthModeCmds(current, mode) == []
    ensures current == DepthOff && mode == DepthLess ==>
      DepthModeCmds(current, mode) == [Enable(DepthTest), DepthFunc(Less)]
    ensures current == DepthLess && mode == DepthOff ==>
      DepthModeCmds(current, mode) == [Disable(DepthTest)]
  {
  }

  // ---------------------------------------------------------------------------
  // The device: the part of OpenGL's state that these commands change.
  // ---------------------------------------------------------------------------

  /** The state the driver keeps for the commands above. */
  datatype Device = Device(
    blendEnabled: bool, blendSrc: BlendFactor, blendDst: BlendFactor,
    depthTestEnabled: bool, depthFunc: CompareFunc, depthMask: bool,
    uniformBuffer: u32)

  /** The effect of one command on the device, as the OpenGL specification defines it. */
  function Apply(d: Device, c: Cmd): Device
  {
    match c
    case Enable(Blend) => d.(blendEnabled := true)
    case Enable(DepthTest) => d.(depthTestEnabled := true)
    case Disable(Blend) => d.(blendEnabled := false)
    case Disable(DepthTest) => d.(depthTestEnabled := false)
    case BlendFunc(s, t) => d.(blendSrc := s, blendDst := t)
    case DepthFunc(f) => d.(depthFunc := f)
    case DepthMask(b) => d.(depthMask := b)
    case BindBuffer(UniformBuffer, b) => d.(uniformBuffer := b)
  }

  /** The device after executing `cmds` in order. */
  function ApplyAll(d: Device, cmds: seq<Cmd>): Device
    decreases |cmds|
  {
    if cmds == [] then d else ApplyAll(Apply(d, cmds[0]), cmds[1..])
  }

  /** The device really is in the blend mode the cache records. */
  predicate BlendAgrees(mode: BlendMode, d: Device)
  {
    match mode
    case BlendNone => !d.blendEnabled
    case BlendAlpha => d.blendEnabled && d.blendSrc == SrcAlpha && d.blendDst == OneMinusSrcAlpha
    case BlendAdditive => d.blendEnabled && d.blendSrc == One && d.blendDst == One
  }

  /** The device really is in the depth mode the cache records. */
  predicate DepthAgrees(mode: DepthMode, d: Device)
  {
    match mode
    case DepthOff => !d.depthTestEnabled
    case DepthLess => d.depthTestEnabled && d.depthFunc == Less
  }

  /** Executing a one-command list is executing that command. */
  lemma ApplyOne(d: Device, c: Cmd)
    ensures ApplyAll(d, [c]) == Apply(d, c)
  {
    assert [c][1..] == [];
  }

  /** Executing a two-command list is executing the two commands in order. */
  lemma ApplyTwo(d: Device, c1: Cmd, c2: Cmd)
    ensures ApplyAll(d, [c1, c2]) == Apply(Apply(d, c1), c2)
  {
    assert [c1, c2][1..] == [c2];
    ApplyOne(Apply(d, c1), c2);
  }

  /**
   * setBlend keeps the device in step with the cache: if the device was in the
   * cached mode, after the issued calls it is in the requested mode, and nothing
   * but its blend state changed.
   */
  lemma SetBlendSyncsDevice(current: BlendMode, mode: BlendMode, d: Device)
    requires BlendAgrees(current, d)
    ensures BlendAgrees(mode, ApplyAll(d, BlendCmds(current, mode)))
    ensures ApplyAll(d, BlendCmds(current, mode)).(blendEnabled := d.blendEnabled,
      blendSrc := d.blendSrc, blendDst := d.blendDst) == d
  {
    var cmds := BlendCmds(current, mode);
    if |cmds| == 2 {
      ApplyTwo(d, cmds[0], cmds[1]);
      assert cmds == [cmds[0], cmds[1]];
    } else if |cmds| == 1 {
      ApplyOne(d, cmds[0]);
      assert cmds == [cmds[0]];
    }
  }

  /** setDepthMode keeps the device in step with the cache; only depth-test state changes. */
  lemma SetDepthModeSyncsDevice(current: DepthMode, mode: DepthMode, d: Device)
    requires DepthAgrees(current, d)
    ensures DepthAgrees(mode, ApplyAll(d, DepthModeCmds(current, mode)))
    ensures ApplyAll(d, DepthModeCmds(current, mode)).(depthTestEnabled := d.depthTestEnabled,
      depthFunc := d.depthFunc) == d
  {
    var cmds := DepthModeCmds(current, mode);
    if |cmds| == 2 {
      ApplyTwo(d, cmds[0], cmds[1]);
      assert cmds == [cmds[0], cmds[1]];
    } else if |cmds| == 1 {
      ApplyOne(d, cmds[0]);
      assert cmds == [cmds[0]];
    }
  }

  /** setDepthWrite keeps the depth mask in step with the cache; nothing else changes. */
  lemma SetDepthWriteSyncsDevice(current: bool, enable: bool, d: Device)
    requires d.depthMask == current
    ensures ApplyAll(d, DepthWriteCmds(current, enable)) == d.(depthMask := enable)
  {
    if enable != current {
      ApplyOne(d, DepthMask(enable));
    }
  }

  /** attachUBO keeps the uniform-buffer binding in step with the cache; nothing else changes. */
  lemma AttachUBOSyncsDevice(current: u32, buffer: u32, d: Device)
    requires d.uniformBuffer == current
    ensures ApplyAll(d, AttachUBOCmds(current, buffer)) == d.(uniformBuffer := buffer)
  {
    if buffer != current {
      ApplyOne(d, BindBuffer(UniformBuffer, buffer));
    }
  }

  /**
   * Calls that go to the device without passing through the cache make it stale:
   * the text renderer enables alpha blending directly, so a cache still holding
   * BLEND_NONE suppresses the next setBlend(BLEND_NONE) and blending stays on.
   */
  lemma BypassingTheCacheLeavesItStale(d: Device)
    requires BlendAgrees(BlendNone, d)
    ensures var bypassed := ApplyAll(d, [Enable(Blend), BlendFunc(SrcAlpha, OneMinusSrcAlpha)]);
      BlendCmds(BlendNone, BlendNone) == [] && !BlendAgrees(BlendNone, ApplyAll(bypassed, BlendCmds(BlendNone, BlendNone)))
  {
    ApplyTwo(d, Enable(Blend), BlendFunc(SrcAlpha, OneMinusSrcAlpha));
  }
}
