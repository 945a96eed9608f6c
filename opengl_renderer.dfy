/**
 * OpenGLRenderer's device-state cache and OpenGLShaderProgram's uniform-location
 * cache. Every OpenGL call a member issues is appended to a trace, so contracts
 * can say exactly which calls were made.
 */
module GLRenderer {
  import opened GLTypes
  import opened GLState

  /** Depth of the stack of debug groups (MAX_DEBUG_DEPTH). */
  const MAX_DEBUG_DEPTH: nat := 5

  /** A non-owning pointer field: null, or the identity of the object it points to. */
  datatype Handle = Null | Ref(id: nat)

  /** Counters of one debug group; all start at zero. */
  datatype ProfileInfo = ProfileInfo(
    timerStart: u64, duration: u64,
    primitives: u32, draws: u32, textures: u32, buffers: u32, uploads: u32)

  const EmptyProfile: ProfileInfo := ProfileInfo(0, 0, 0, 0, 0, 0, 0)

  /** The renderer's state cache, field by field. */
  datatype CacheState = CacheState(
    dbuff: Handle, program: Handle,
    blend: BlendMode, depth: DepthMode, depthWrite: bool,
    ubo: u32, unit: u32, textures: map<u32, u32>)

  /** The values the cache fields are declared with. */
  const InitialCache: CacheState :=
    CacheState(Null, Null, BlendNone, DepthOff, false, 0, 0, map[])

  /** One more upload counted in a debug group. */
  function CountUpload(p: ProfileInfo): (q: ProfileInfo)
    ensures q.uploads == Increment(p.uploads)
    ensures q.(uploads := p.uploads) == p
  {
    p.(uploads := Increment(p.uploads))
  }

  class OpenGLRenderer {
    var currentDbuff: Handle
    var currentProgram: Handle
    var blendMode: BlendMode
    var depthMode: DepthMode
    var depthWriteEnabled: bool
    var currentUBO: u32
    var currentUnit: u32
    var currentTextures: map<u32, u32>

    /** Every OpenGL state call issued so far, oldest first. */
    var trace: seq<Cmd>

    /** Profiling counters, one per debug-group nesting level. */
    const profileInfo: array<ProfileInfo>
    var currentDebugDepth: int

    ghost predicate Valid()
      reads this
    {
      profileInfo.Length == MAX_DEBUG_DEPTH && 0 <= currentDebugDepth <= MAX_DEBUG_DEPTH
    }

    ghost function Cache(): CacheState
      reads this
    {
      CacheState(currentDbuff, currentProgram, blendMode, depthMode, depthWriteEnabled,
                 currentUBO, currentUnit, currentTextures)
    }

    /** The field initialisers: an empty cache, no debug group open, zeroed counters. */
    constructor ()
      ensures Valid() && fresh(profileInfo)
      ensures Cache() == InitialCache && trace == [] && currentDebugDepth == 0
      ensures forall i :: 0 <= i < profileInfo.Length ==> profileInfo[i] == EmptyProfile
    {
      currentDbuff, currentProgram := Null, Null;
      blendMode, depthMode, depthWriteEnabled := BlendNone, DepthOff, false;
      currentUBO, currentUnit, currentTextures := 0, 0, map[];
      trace := [];
      profileInfo := new ProfileInfo[MAX_DEBUG_DEPTH](_ => EmptyProfile);
      currentDebugDepth := 0;
    }

    /** setBlend: issues the blend calls the change needs, then caches the mode. */
    method SetBlend(mode: BlendMode)
      modifies this`blendMode, this`trace
      ensures trace == old(trace) + BlendCmds(old(blendMode), mode)
      ensures Cache() == old(Cache()).(blend := mode)
    {
      if mode != BlendNone && blendMode == BlendNone {
        trace := trace + [Enable(Blend)];
      }
      if mode != blendMode {
        match mode {
          case BlendNone => trace := trace + [Disable(Blend)];
          case BlendAlpha => trace := trace + [BlendFunc(SrcAlpha, OneMinusSrcAlpha)];
          case BlendAdditive => trace := trace + [BlendFunc(One, One)];
        }
      }
      blendMode := mode;
    }

    /** setDepthMode: issues the depth-test calls the change needs, then caches the mode. */
    method SetDepthMode(mode: DepthMode)
      modifies this`depthMode, this`trace
      ensures trace == old(trace) + DepthModeCmds(old(depthMode), mode)
      ensures Cache() == old(Cache()).(depth := mode)
    {
      if mode != depthMode {
        if depthMode == DepthOff {
          trace := trace + [Enable(DepthTest)];
        }
        match mode {
          case DepthOff => trace := trace + [Disable(DepthTest)];
          case DepthLess => trace := trace + [DepthFunc(Less)];
        }
        depthMode := mode;
      }
    }

    /** setDepthWrite: one glDepthMask when the flag changes. */
    method SetDepthWrite(enable: bool)
      modifies this`depthWriteEnabled, this`trace
      ensures trace == old(trace) + DepthWriteCmds(old(depthWriteEnabled), enable)
      ensures Cache() == old(Cache()).(depthWrite := enable)
    {
      if enable != depthWriteEnabled {
        trace := trace + [DepthMask(enable)];
        depthWriteEnabled := enable;
      }
    }

    /** attachUBO: one glBindBuffer(GL_UNIFORM_BUFFER, buffer) when the binding changes. */
    method AttachUBO(buffer: u32)
      modifies this`currentUBO, this`trace
      ensures trace == old(trace) + AttachUBOCmds(old(currentUBO), buffer)
      ensures Cache() == old(Cache()).(ubo := buffer)
    {
      if currentUBO != buffer {
        trace := trace + [BindBuffer(UniformBuffer, buffer)];
        currentUBO := buffer;
      }
    }

    /**
     * The statistics part of uploadUBO: the innermost open debug group, if any,
     * counts one more upload; no other group and no cache field changes.
     */
    method UploadUBO()
      requires Valid()
      modifies profileInfo
      ensures currentDebugDepth > 0 ==>
        profileInfo[..] == old(profileInfo[..])[currentDebugDepth - 1 := CountUpload(old(profileInfo[currentDebugDepth - 1]))]
      ensures currentDebugDepth == 0 ==> profileInfo[..] == old(profileInfo[..])
    {
      if currentDebugDepth > 0 {
        profileInfo[currentDebugDepth - 1] := CountUpload(profileInfo[currentDebugDepth - 1]);
      }
    }
  }

  // ---------------------------------------------------------------------------
  // OpenGLShaderProgram
  // ---------------------------------------------------------------------------

  /** The C string of a std::string: its characters before the first NUL. */
  function CStr(s: string): (r: string)
    ensures r <= s && '\0' !in r
    ensures |r| < |s| ==> s[|r|] == '\0'
    decreases |s|
  {
    if s == [] || s[0] == '\0' then [] else [s[0]] + CStr(s[1..])
  }

  /** A name without NUL characters is its own C string. */
  lemma {:induction false} PlainNameIsItsCStr(s: string)
    requires '\0' !in s
    ensures CStr(s) == s
    decreases |s|
  {
    if s != [] {
      assert '\0' !in s[1..];
      PlainNameIsItsCStr(s[1..]);
      assert s == [s[0]] + s[1..];
    }
  }

  /** No name occurs twice. */
  ghost predicate NoRepeats(names: seq<string>)
  {
    forall i, j :: 0 <= i < j < |names| ==> names[i] != names[j]
  }

  class OpenGLShaderProgram {
    /** The program object's name. */
    const program: u32
    /** The driver's glGetUniformLocation, left uninterpreted. */
    const uniformLocationOf: (u32, string) -> i32
    /** Locations already looked up, by uniform name. */
    var uniforms: map<string, i32>
    /** The names passed to glGetUniformLocation so far, oldest first. */
    var queries: seq<string>

    /**
     * Every cached location is what the driver reports, every key is a C string,
     * the driver was asked exactly for the cached names, and never twice.
     */
    ghost predicate Valid()
      reads this
    {
      && (forall name :: name in uniforms ==> uniforms[name] == uniformLocationOf(program, name) && CStr(name) == name)
      && (forall name :: name in uniforms <==> name in queries)
      && NoRepeats(queries)
    }

    constructor (p: u32, locate: (u32, string) -> i32)
      ensures Valid()
      ensures program == p && uniformLocationOf == locate
      ensures uniforms == map[] && queries == []
    {
      program := p;
      uniformLocationOf := locate;
      uniforms := map[];
      queries := [];
    }

    method GetName() returns (name: u32)
      ensures name == program
    {
      name := program;
    }

    /**
     * getUniformLocation: the driver's location for the name, asked for at most
     * once per name; a hit leaves the cache untouched.
     */
    method GetUniformLocation(name: string) returns (loc: i32)
      requires Valid()
      modifies this`uniforms, this`queries
      ensures Valid()
      ensures loc == uniformLocationOf(program, CStr(name))
      ensures old(CStr(name) in uniforms) ==> uniforms == old(uniforms) && queries == old(queries)
      ensures old(CStr(name) !in uniforms) ==>
        uniforms == old(uniforms)[CStr(name) := loc] && queries == old(queries) + [CStr(name)]
    {
      var key := CStr(name);
      if key !in uniforms {
        loc := uniformLocationOf(program, key);
        queries := queries + [key];
        uniforms := uniforms[key := loc];
      } else {
        loc := uniforms[key];
      }
    }
  }

  /**
   * getUniformLocation as written: it looks the C string up and queries the
   * driver with it, but stores the location under the full name. Returns the
   * location, the new map and whether the driver was queried.
   */
  function LookupAsWritten(uniforms: map<string, i32>, locate: (u32, string) -> i32, program: u32, name: string)
    : (r: (i32, map<string, i32>, bool))
    ensures r.2 <==> CStr(name) !in uniforms
    ensures r.0 == if CStr(name) in uniforms then uniforms[CStr(name)] else locate(program, CStr(name))
    ensures r.1 == if CStr(name) in uniforms then uniforms else uniforms[name := r.0]
  {
    var key := CStr(name);
    if key !in uniforms then
      var loc := locate(program, key);
      (loc, uniforms[name := loc], true)
    else
      (uniforms[key], uniforms, false)
  }

  /** A name with an embedded NUL is stored under a key it is never looked up by, so every call queries the driver again. */
  lemma EmbeddedNulQueriesEveryTime(locate: (u32, string) -> i32, program: u32)
    ensures var first := LookupAsWritten(map[], locate, program, "a\0b");
      var second := LookupAsWritten(first.1, locate, program, "a\0b");
      first.2 && second.2
  {
    var name := "a\0b";
    assert name[1..] == "\0b";
    assert CStr(name[1..]) == [];
    assert CStr(name) == "a";
  }

  /** For names without NUL characters the code as written caches under the key it looks up. */
  lemma AsWrittenAgreesOnPlainNames(uniforms: map<string, i32>, locate: (u32, string) -> i32, program: u32, name: string)
    requires '\0' !in name
    ensures LookupAsWritten(uniforms, locate, program, name)
      == if name in uniforms then (uniforms[name], uniforms, false)
         else (locate(program, name), uniforms[name := locate(program, name)], true)
  {
    PlainNameIsItsCStr(name);
  }
}
