/**
 * The GLProgram wrapper: shader sources, the `ready` flag that guards every uniform upload,
 * the argument checks that run before each upload, and the fragment-shader routing flag
 * built from keywords of a routing string.  Every OpenGL call is outside the model; where
 * its outcome decides a branch it is a parameter.
 */
module GlProgram {
  import opened Wrappers
  import opened Canvas

  /** The dynamically typed Python values the methods are called with; an ndarray by its shape. */
  datatype Value = Str(s: string) | Int(i: int) | Bool(b: bool) | Float(f: real) | Array(shape: seq<nat>) | Nothing

  /** The exceptions raised: TypeError, a plain Exception, AttributeError (no .shape / .size). */
  datatype PyError = TypeError(message: string) | Error(message: string) | AttributeError

  // ---------------------------------------------------------------------------------------------
  // Strings: str.lower and the `in` operator

  function LowerChar(c: char): char
  {
    if 'A' <= c <= 'Z' then (c as int + 32) as char else c
  }

  /** str.lower on ASCII letters. */
  function Lower(s: string): (l: string)
    ensures |l| == |s|
    ensures forall i :: 0 <= i < |s| ==> l[i] == LowerChar(s[i])
  {
    if s == [] then [] else [LowerChar(s[0])] + Lower(s[1..])
  }

  /** Lowering twice is lowering once. */
  lemma LowerIdempotent(s: string)
    ensures Lower(Lower(s)) == Lower(s)
  {
    var l := Lower(s);
    assert forall i :: 0 <= i < |s| ==> Lower(l)[i] == l[i];
  }

  /** k occurs in s starting at offset i. */
  predicate OccursAt(s: string, k: string, i: int)
  {
    0 <= i <= |s| - |k| && s[i..i + |k|] == k
  }

  /** `k in s` for strings: k is a prefix of s or occurs in s after its first character. */
  predicate Contains(s: string, k: string)
    decreases |s|
  {
    if |s| < |k| then false else s[..|k|] == k || Contains(s[1..], k)
  }

  /** `k in s` holds exactly when k occurs in s at some offset. */
  lemma {:induction false} ContainsOccurs(s: string, k: string)
    ensures Contains(s, k) <==> exists i | 0 <= i <= |s| - |k| :: OccursAt(s, k, i)
  {
    if |s| >= |k| {
      if s[..|k|] == k {
        assert OccursAt(s, k, 0);
      } else {
        ContainsOccurs(s[1..], k);
        if Contains(s[1..], k) {
          var i :| 0 <= i <= |s[1..]| - |k| && OccursAt(s[1..], k, i);
          assert s[1..][i..i + |k|] == s[i + 1..i + 1 + |k|];
          assert OccursAt(s, k, i + 1);
        }
        if exists i | 0 <= i <= |s| - |k| :: OccursAt(s, k, i) {
          var i :| 0 <= i <= |s| - |k| && OccursAt(s, k, i);
          assert i != 0;
          assert s[1..][i - 1..i - 1 + |k|] == s[i..i + |k|];
          assert OccursAt(s[1..], k, i - 1);
        }
      }
    }
  }

  /** A piece of a piece of t is a piece of t. */
  lemma ContainsTrans(t: string, s: string, k: string)
    requires Contains(t, s) && Contains(s, k)
    ensures Contains(t, k)
  {
    ContainsOccurs(t, s);
    ContainsOccurs(s, k);
    var i :| 0 <= i <= |t| - |s| && OccursAt(t, s, i);
    var j :| 0 <= j <= |s| - |k| && OccursAt(s, k, j);
    forall m | 0 <= m < |k|
      ensures t[i + j + m] == k[m]
    {
      assert t[i + j + m] == t[i..i + |s|][j + m] == s[j + m];
      assert s[j + m] == s[j..j + |k|][m];
    }
    assert t[i + j..i + j + |k|] == k;
    assert OccursAt(t, k, i + j);
    ContainsOccurs(t, k);
  }

  // ---------------------------------------------------------------------------------------------
  // setFragmentShaderRouting

  /** The routing keywords, in the order setFragmentShaderRouting tests them. */
  const Keywords: seq<string> :=
    ["lighting", "illumination", "vertex", "pure", "normal", "bump", "artist", "custom", "texture"]

  /** The outcomes of the routing tests; lighting stands for `"lighting" or "illumination"`. */
  datatype Tests = Tests(lighting: bool, vertex: bool, pure: bool, normal: bool, bump: bool,
                         artist: bool, custom: bool, texture: bool)

  /** The routing tests on a lowered string. */
  function Hits(l: string): Tests
  {
    Tests(Contains(l, "lighting") || Contains(l, "illumination"), Contains(l, "vertex"), Contains(l, "pure"),
          Contains(l, "normal"), Contains(l, "bump"), Contains(l, "artist"), Contains(l, "custom"),
          Contains(l, "texture"))
  }

  /** The flag for the tests' outcomes; "custom" contributes two bits. */
  function FlagOf(h: Tests): bv16
  {
    (if h.lighting then 0x1 else 0) | (if h.vertex then 0x2 else 0) | (if h.pure then 0x4 else 0)
    | (if h.normal then 0x8 else 0) | (if h.bump then 0x10 else 0) | (if h.artist then 0x20 else 0)
    | (if h.custom then 0x40 else 0) | (if h.texture then 0x100 else 0) | (if h.custom then 0x200 else 0)
  }

  /**
   * The flag setFragmentShaderRouting uploads: for a string, the bits of the keywords its
   * lowered text contains; 0 for anything else.
   */
  function RoutingFlag(routing: Value): bv16
  {
    if !routing.Str? then 0 else FlagOf(Hits(Lower(routing.s)))
  }

  predicate Bit(flag: bv16, b: nat)
    requires b < 16
  {
    flag & (1 << b) != 0
  }

  /** The successive `|=` updates of setFragmentShaderRouting. */
  method RenderingFlag(routing: Value) returns (renderingFlag: bv16)
    ensures renderingFlag == RoutingFlag(routing)
  {
    renderingFlag := 0;
    if routing.Str? {
      var lowered := Lower(routing.s);
      var hit := Hits(lowered);
      if hit.lighting {
        renderingFlag := renderingFlag | 0x1;
      }
      if hit.vertex {
        renderingFlag := renderingFlag | (0x1 << 1);
      }
      if hit.pure {
        renderingFlag := renderingFlag | (0x1 << 2);
      }
      if hit.normal {
        renderingFlag := renderingFlag | (0x1 << 3);
      }
      if hit.bump {
        renderingFlag := renderingFlag | (0x1 << 4);
      }
      if hit.artist {
        renderingFlag := renderingFlag | (0x1 << 5);
      }
      if hit.custom {
        renderingFlag := renderingFlag | (0x1 << 6);
      }
      if hit.texture {
        renderingFlag := renderingFlag | (0x1 << 8);
      }
      if hit.custom {
        renderingFlag := renderingFlag | (0x1 << 9);
      }
    }
  }

  /** Each test owns its bits; bit 7 and every bit from 10 up stay clear. */
  lemma FlagOfBits(h: Tests)
    ensures var flag := FlagOf(h);
            (Bit(flag, 0) <==> h.lighting) && (Bit(flag, 1) <==> h.vertex) && (Bit(flag, 2) <==> h.pure)
            && (Bit(flag, 3) <==> h.normal) && (Bit(flag, 4) <==> h.bump) && (Bit(flag, 5) <==> h.artist)
            && (Bit(flag, 6) <==> h.custom) && !Bit(flag, 7) && (Bit(flag, 8) <==> h.texture)
            && (Bit(flag, 9) <==> h.custom) && flag < 1024
  {
  }

  /** Every test a passes, b passes too. */
  predicate Within(a: Tests, b: Tests)
  {
    (a.lighting ==> b.lighting) && (a.vertex ==> b.vertex) && (a.pure ==> b.pure) && (a.normal ==> b.normal)
    && (a.bump ==> b.bump) && (a.artist ==> b.artist) && (a.custom ==> b.custom) && (a.texture ==> b.texture)
  }

  /** More passed tests never clear a bit. */
  lemma FlagOfMonotone(a: Tests, b: Tests)
    requires Within(a, b)
    ensures FlagOf(a) | FlagOf(b) == FlagOf(b)
  {
  }

  /**
   * Each bit is set exactly when its keyword occurs in the lowered routing string; "custom"
   * sets bits 6 and 9 together, bit 7 is never set and the flag stays below 1024.
   */
  lemma RoutingBits(s: string)
    ensures var flag := RoutingFlag(Str(s));
            var l := Lower(s);
            (Bit(flag, 0) <==> Contains(l, "lighting") || Contains(l, "illumination"))
            && (Bit(flag, 1) <==> Contains(l, "vertex"))
            && (Bit(flag, 2) <==> Contains(l, "pure"))
            && (Bit(flag, 3) <==> Contains(l, "normal"))
            && (Bit(flag, 4) <==> Contains(l, "bump"))
            && (Bit(flag, 5) <==> Contains(l, "artist"))
            && (Bit(flag, 6) <==> Contains(l, "custom"))
            && !Bit(flag, 7)
            && (Bit(flag, 8) <==> Contains(l, "texture"))
            && (Bit(flag, 9) <==> Contains(l, "custom"))
            && flag as int < 1024
  {
    FlagOfBits(Hits(Lower(s)));
  }

  /** A non-string routing uploads 0. */
  lemma RoutingNonString(routing: Value)
    requires !routing.Str?
    ensures RoutingFlag(routing) == 0
  {
  }

  /** Matching ignores case: strings equal up to case get the same flag. */
  lemma RoutingIgnoresCase(s: string, t: string)
    requires Lower(s) == Lower(t)
    ensures RoutingFlag(Str(s)) == RoutingFlag(Str(t))
    ensures RoutingFlag(Str(Lower(s))) == RoutingFlag(Str(s))
  {
    LowerIdempotent(s);
  }

  /** A string holding every keyword another one holds passes every test the other passes. */
  lemma HitsMonotone(l: string, m: string)
    requires forall w | w in Keywords :: Contains(l, w) ==> Contains(m, w)
    ensures Within(Hits(l), Hits(m))
  {
    assert "lighting" in Keywords && "illumination" in Keywords && "vertex" in Keywords;
    assert "pure" in Keywords && "normal" in Keywords && "bump" in Keywords;
    assert "artist" in Keywords && "custom" in Keywords && "texture" in Keywords;
  }

  /** The flag only accumulates bits: when every keyword of s also occurs in t, t has all of s's bits. */
  lemma RoutingMonotone(s: string, t: string)
    requires forall w | w in Keywords :: Contains(Lower(s), w) ==> Contains(Lower(t), w)
    ensures RoutingFlag(Str(s)) | RoutingFlag(Str(t)) == RoutingFlag(Str(t))
  {
    HitsMonotone(Lower(s), Lower(t));
    FlagOfMonotone(Hits(Lower(s)), Hits(Lower(t)));
  }

  /** A routing whose lowered text occurs inside another's gets a subset of the other's bits. */
  lemma RoutingSubstring(s: string, t: string)
    requires Contains(Lower(t), Lower(s))
    ensures RoutingFlag(Str(s)) | RoutingFlag(Str(t)) == RoutingFlag(Str(t))
  {
    forall w | w in Keywords && Contains(Lower(s), w)
      ensures Contains(Lower(t), w)
    {
      ContainsTrans(Lower(t), Lower(s), w);
    }
    RoutingMonotone(s, t);
  }

  // ---------------------------------------------------------------------------------------------
  // Argument checks before an upload

  function Size(shape: seq<nat>): nat
  {
    if shape == [] then 1 else shape[0] * Size(shape[1..])
  }

  function MatMessage(n: nat): string
  {
    if n == 4 then "Matrix must have 4x4 shape" else if n == 3 then "Matrix must have 3x3 shape"
    else "Matrix must have 2x2 shape"
  }

  function VecMessage(n: nat): string
  {
    if n == 4 then "Vector must have size 4" else if n == 3 then "Vector must have size 3"
    else "Vector must have size 2"
  }

  /** setMat2/3/4: only an n x n array passes; a value without .shape raises AttributeError. */
  function MatCheck(n: nat, mat: Value): (r: Outcome<PyError>)
    requires 2 <= n <= 4
    ensures r.Pass? <==> mat.Array? && mat.shape == [n, n]
  {
    if !mat.Array? then Fail(AttributeError)
    else if mat.shape != [n, n] then Fail(Error(MatMessage(n)))
    else Pass
  }

  /** setVec2/3/4: any array of n elements passes, whatever its shape. */
  function VecCheck(n: nat, vec: Value): (r: Outcome<PyError>)
    requires 2 <= n <= 4
    ensures r.Pass? <==> vec.Array? && Size(vec.shape) == n
  {
    if !vec.Array? then Fail(AttributeError)
    else if Size(vec.shape) != n then Fail(Error(VecMessage(n)))
    else Pass
  }

  /** Every array of n elements passes setVecn, the flat one and the column or row alike. */
  lemma VecAcceptsAnyLayout(n: nat)
    requires 2 <= n <= 4
    ensures VecCheck(n, Array([n])).Pass? && VecCheck(n, Array([1, n])).Pass? && VecCheck(n, Array([n, 1])).Pass?
    ensures !MatCheck(n, Array([n * n])).Pass?
  {
    assert Size([n]) == n * Size([]);
    assert Size([1, n]) == 1 * Size([n]);
    assert Size([n, 1]) == n * Size([1]);
  }

  /** int(value) for the values the methods receive; None when Python raises on it. */
  function PyInt(v: Value): (r: Option<int>)
    ensures v.Int? ==> r == Some(v.i)
    ensures v.Float? ==> r == Some(Trunc(v.f))
  {
    match v
    case Int(i) => Some(i)
    case Bool(b) => Some(if b then 1 else 0)
    case Float(f) => Some(Trunc(f))
    case _ => None
  }

  /** setInt: value != int(value) raises; otherwise int(value) is uploaded. */
  function IntCheck(v: Value): Result<int, PyError>
  {
    match v
    case Int(i) => Ok(i)
    case Bool(b) => Ok(if b then 1 else 0)
    case Float(f) => if f == Trunc(f) as real then Ok(Trunc(f)) else Err(Error("set int only accept integer"))
    case Nothing => Err(TypeError("int() argument must be a string, a bytes-like object or a real number"))
    case _ => Err(Error("set int only accept integer"))
  }

  /** setInt accepts exactly the integers, the booleans and the integral floats, and uploads the number itself. */
  lemma IntCheckAccepts(v: Value)
    ensures IntCheck(v).Ok? <==> v.Int? || v.Bool? || (v.Float? && v.f == v.f.Floor as real)
    ensures IntCheck(v).Ok? ==> Some(IntCheck(v).value) == PyInt(v)
    ensures IntCheck(v).Ok? && v.Float? ==> IntCheck(v).value as real == v.f
  {
    if v.Float? && v.f < 0.0 {
      var n := Trunc(v.f);
      if v.f == v.f.Floor as real {
        assert v.f.Floor <= n;
      }
    }
  }

  /** setBool: `value not in (0, 1)` raises; True, False, 0, 1, 0.0 and 1.0 pass. */
  function BoolCheck(v: Value): Result<int, PyError>
  {
    match v
    case Int(i) => if i == 0 || i == 1 then Ok(i) else Err(Error("bool only accept True/False/0/1"))
    case Bool(b) => Ok(if b then 1 else 0)
    case Float(f) =>
      if f == 0.0 || f == 1.0 then Ok(if f == 1.0 then 1 else 0) else Err(Error("bool only accept True/False/0/1"))
    case _ => Err(Error("bool only accept True/False/0/1"))
  }

  /** setBool accepts exactly True, False and the numbers equal to 0 or 1. */
  lemma BoolCheckAccepts(v: Value)
    ensures BoolCheck(v).Ok? <==>
              v.Bool? || (v.Int? && (v.i == 0 || v.i == 1)) || (v.Float? && (v.f == 0.0 || v.f == 1.0))
  {
  }

  /** Whatever setBool accepts, setInt accepts and uploads as the same 0 or 1. */
  lemma BoolIsInt(v: Value)
    requires BoolCheck(v).Ok?
    ensures IntCheck(v) == BoolCheck(v)
    ensures BoolCheck(v).value == 0 || BoolCheck(v).value == 1
  {
    if v.Float? && v.f == 1.0 {
      assert Trunc(1.0) == 1;
    }
  }

  // ---------------------------------------------------------------------------------------------
  // Compilation state

  /** The fields compile reads and writes. */
  datatype ProgramState = ProgramState(ready: bool, vss: string, fss: string)

  /** What load_shader yields: a shader handle, or the compile log it raises with. */
  datatype ShaderResult = Compiled(handle: int) | CompileError(info: string)

  /** Python truthiness; an array counts as true when it has elements. */
  predicate Truthy(v: Value)
  {
    match v
    case Str(s) => s != ""
    case Int(i) => i != 0
    case Bool(b) => b
    case Float(f) => f != 0.0
    case Array(shape) => Size(shape) != 0
    case Nothing => false
  }

  const VssMessage := "Vertex shader source code must be a string"
  const FssMessage := "Fragment shader source code must be a string"

  /** set_vss / set_fss: a string replaces the source, anything else raises TypeError. */
  function SetSource(current: string, src: Value, message: string): (r: (string, Outcome<PyError>))
    ensures r.1.Pass? <==> src.Str?
    ensures r.0 == (if src.Str? then src.s else current)
  {
    if src.Str? then (src.s, Pass) else (current, Fail(TypeError(message)))
  }

  /**
   * The first half of compile: a truthy argument goes through set_vss / set_fss, a falsy one
   * leaves the stored source in place; the first TypeError stops it.
   */
  function StoreSources(st: ProgramState, vsSrc: Value, fsSrc: Value): (ProgramState, Outcome<PyError>)
  {
    var vs := if Truthy(vsSrc) then SetSource(st.vss, vsSrc, VssMessage) else (st.vss, Pass);
    if vs.1.Fail? then (st, vs.1)
    else
      var fs := if Truthy(fsSrc) then SetSource(st.fss, fsSrc, FssMessage) else (st.fss, Pass);
      (st.(vss := vs.0, fss := fs.0), fs.1)
  }

  /**
   * The second half of compile, on the stored sources: both must be non-empty, both shaders
   * must load (a zero handle returns quietly), the link must succeed, and only then is ready set.
   */
  function BuildShaders(st: ProgramState, vsShader: ShaderResult, fsShader: ShaderResult, link: Outcome<string>)
    : (ProgramState, Outcome<PyError>)
  {
    if st.vss == "" || st.fss == "" then (st, Fail(Error("shader source code missing")))
    else if vsShader.CompileError? then (st, Fail(Error(vsShader.info)))
    else if vsShader.handle == 0 then (st, Pass)
    else if fsShader.CompileError? then (st, Fail(Error(fsShader.info)))
    else if fsShader.handle == 0 then (st, Pass)
    else if link.Fail? then (st, Fail(Error(link.error)))
    else (st.(ready := true), Pass)
  }

  /** compile(vs_src, fs_src): store the sources, then compile and link them. */
  function CompileStep(st: ProgramState, vsSrc: Value, fsSrc: Value,
                       vsShader: ShaderResult, fsShader: ShaderResult, link: Outcome<string>)
    : (ProgramState, Outcome<PyError>)
  {
    var stored := StoreSources(st, vsSrc, fsSrc);
    if stored.1.Fail? then stored else BuildShaders(stored.0, vsShader, fsShader, link)
  }

  /** The source compile ends up using: the argument when truthy, else the stored one. */
  function Effective(stored: string, src: Value): Value
  {
    if Truthy(src) then src else Str(stored)
  }

  /** A compile whose sources are non-empty strings, whose shaders compile to real handles and link. */
  predicate CompileSucceeds(st: ProgramState, vsSrc: Value, fsSrc: Value,
                            vsShader: ShaderResult, fsShader: ShaderResult, link: Outcome<string>)
  {
    var vs, fs := Effective(st.vss, vsSrc), Effective(st.fss, fsSrc);
    vs.Str? && vs.s != "" && fs.Str? && fs.s != ""
    && vsShader.Compiled? && vsShader.handle != 0 && fsShader.Compiled? && fsShader.handle != 0
    && link.Pass?
  }

  /**
   * ready becomes true exactly through a successful compile and never goes back to false;
   * a successful compile returns normally and stores the sources it used.
   */
  lemma CompileReady(st: ProgramState, vsSrc: Value, fsSrc: Value,
                     vsShader: ShaderResult, fsShader: ShaderResult, link: Outcome<string>)
    ensures var (st', r) := CompileStep(st, vsSrc, fsSrc, vsShader, fsShader, link);
            (st'.ready <==> st.ready || CompileSucceeds(st, vsSrc, fsSrc, vsShader, fsShader, link))
            && (CompileSucceeds(st, vsSrc, fsSrc, vsShader, fsShader, link) ==>
                  r.Pass? && Str(st'.vss) == Effective(st.vss, vsSrc) && Str(st'.fss) == Effective(st.fss, fsSrc))
  {
  }

  /**
   * A truthy non-string source raises TypeError; a missing source raises; neither sets ready.
   * A bad fragment source is only seen after the vertex source has been stored.
   */
  lemma CompileRejects(st: ProgramState, vsSrc: Value, fsSrc: Value,
                       vsShader: ShaderResult, fsShader: ShaderResult, link: Outcome<string>)
    ensures var (st', r) := CompileStep(st, vsSrc, fsSrc, vsShader, fsShader, link);
            (Truthy(vsSrc) && !vsSrc.Str? ==> st' == st && r == Fail(TypeError(VssMessage)))
            && (!(Truthy(vsSrc) && !vsSrc.Str?) && Truthy(fsSrc) && !fsSrc.Str? ==>
                  r == Fail(TypeError(FssMessage)) && Str(st'.vss) == Effective(st.vss, vsSrc)
                  && st'.fss == st.fss && st'.ready == st.ready)
            && (var vs, fs := Effective(st.vss, vsSrc), Effective(st.fss, fsSrc);
                vs.Str? && fs.Str? && (vs.s == "" || fs.s == "") ==>
                  r == Fail(Error("shader source code missing")) && st'.ready == st.ready)
  {
  }

  const UseMessage := "GLProgram must compile before use it"

  class GLProgram {
    var ready: bool
    var vertexShaderSource: string
    var fragmentShaderSource: string

    function State(): ProgramState
      reads this
    {
      ProgramState(ready, vertexShaderSource, fragmentShaderSource)
    }

    /** __init__: not ready; the two shader files' contents are the stored sources. */
    constructor(vertexShaderFile: string, fragmentShaderFile: string)
      ensures !ready
      ensures vertexShaderSource == vertexShaderFile && fragmentShaderSource == fragmentShaderFile
    {
      ready := false;
      vertexShaderSource := vertexShaderFile;
      fragmentShaderSource := fragmentShaderFile;
    }

    method SetVss(vss: Value) returns (r: Outcome<PyError>)
      modifies this
      ensures (vertexShaderSource, r) == SetSource(old(vertexShaderSource), vss, VssMessage)
      ensures ready == old(ready) && fragmentShaderSource == old(fragmentShaderSource)
    {
      if !vss.Str? {
        return Fail(TypeError(VssMessage));
      }
      vertexShaderSource := vss.s;
      r := Pass;
    }

    method SetFss(fss: Value) returns (r: Outcome<PyError>)
      modifies this
      ensures (fragmentShaderSource, r) == SetSource(old(fragmentShaderSource), fss, FssMessage)
      ensures ready == old(ready) && vertexShaderSource == old(vertexShaderSource)
    {
      if !fss.Str? {
        return Fail(TypeError(FssMessage));
      }
      fragmentShaderSource := fss.s;
      r := Pass;
    }

    /** The argument half of compile: set_vss / set_fss for the truthy arguments. */
    method LoadSources(vsSrc: Value, fsSrc: Value) returns (r: Outcome<PyError>)
      modifies this
      ensures (State(), r) == StoreSources(old(State()), vsSrc, fsSrc)
    {
      r := Pass;
      if Truthy(vsSrc) {
        r := SetVss(vsSrc);
        if r.Fail? {
          return;
        }
      }
      if Truthy(fsSrc) {
        r := SetFss(fsSrc);
      }
    }

    /** The shader half of compile, with load_shader's and the link step's outcomes as parameters. */
    method LinkShaders(vsShader: ShaderResult, fsShader: ShaderResult, link: Outcome<string>)
      returns (r: Outcome<PyError>)
      modifies this
      ensures (State(), r) == BuildShaders(old(State()), vsShader, fsShader, link)
    {
      if vertexShaderSource == "" || fragmentShaderSource == "" {
        return Fail(Error("shader source code missing"));
      }
      if vsShader.CompileError? {
        return Fail(Error(vsShader.info));
      }
      if vsShader.handle == 0 {
        return Pass;
      }
      if fsShader.CompileError? {
        return Fail(Error(fsShader.info));
      }
      if fsShader.handle == 0 {
        return Pass;
      }
      if link.Fail? {
        return Fail(Error(link.error));
      }
      ready := true;
      r := Pass;
    }

    /** compile: store the sources, then compile and link them; ready is set only at the end. */
    method Compile(vsSrc: Value, fsSrc: Value, vsShader: ShaderResult, fsShader: ShaderResult, link: Outcome<string>)
      returns (r: Outcome<PyError>)
      modifies this
      ensures (State(), r) == CompileStep(old(State()), vsSrc, fsSrc, vsShader, fsShader, link)
    {
      r := LoadSources(vsSrc, fsSrc);
      if r.Fail? {
        return;
      }
      r := LinkShaders(vsShader, fsShader, link);
    }

    /** use: raises until a compile has succeeded. */
    method Use() returns (r: Outcome<PyError>)
      ensures r.Pass? <==> ready
      ensures r.Fail? ==> r == Fail(Error(UseMessage))
    {
      if !ready {
        return Fail(Error(UseMessage));
      }
      r := Pass;
    }

    /** setInt: use, then the integral check; `sent` is the number handed to glUniform1i. */
    method SetInt(name: string, value: Value) returns (r: Outcome<PyError>, sent: Option<int>)
      ensures !ready ==> r == Fail(Error(UseMessage)) && sent == None
      ensures ready ==> (r.Pass? <==> IntCheck(value).Ok?)
      ensures ready && IntCheck(value).Ok? ==> sent == Some(IntCheck(value).value)
    {
      r := Use();
      sent := None;
      if r.Fail? {
        return;
      }
      var checked := IntCheck(value);
      if checked.Err? {
        r := Fail(checked.error);
        return;
      }
      sent := Some(checked.value);
    }

    /** setBool: use, then the 0/1 check; `sent` is the number handed to glUniform1i. */
    method SetBool(name: string, value: Value) returns (r: Outcome<PyError>, sent: Option<int>)
      ensures !ready ==> r == Fail(Error(UseMessage)) && sent == None
      ensures ready ==> (r.Pass? <==> BoolCheck(value).Ok?)
      ensures ready && BoolCheck(value).Ok? ==> sent == Some(BoolCheck(value).value)
    {
      r := Use();
      sent := None;
      if r.Fail? {
        return;
      }
      var checked := BoolCheck(value);
      if checked.Err? {
        r := Fail(checked.error);
        return;
      }
      sent := Some(checked.value);
    }

    /** setMat2/3/4: use, then the shape check. */
    method SetMat(n: nat, name: string, mat: Value) returns (r: Outcome<PyError>)
      requires 2 <= n <= 4
      ensures !ready ==> r == Fail(Error(UseMessage))
      ensures ready ==> r == MatCheck(n, mat)
    {
      r := Use();
      if r.Pass? {
        r := MatCheck(n, mat);
      }
    }

    /** setVec2/3/4: use, then the size check. */
    method SetVec(n: nat, name: string, vec: Value) returns (r: Outcome<PyError>)
      requires 2 <= n <= 4
      ensures !ready ==> r == Fail(Error(UseMessage))
      ensures ready ==> r == VecCheck(n, vec)
    {
      r := Use();
      if r.Pass? {
        r := VecCheck(n, vec);
      }
    }

    /**
     * setFragmentShaderRouting: the flag from the routing keywords, uploaded through use and
     * setInt; `sent` is the uploaded flag.
     */
    method SetFragmentShaderRouting(routing: Value) returns (r: Outcome<PyError>, sent: Option<int>)
      ensures r.Pass? <==> ready
      ensures ready ==> sent == Some(RoutingFlag(routing) as int)
      ensures !ready ==> sent == None
    {
      var renderingFlag := RenderingFlag(routing);
      r := Use();
      sent := None;
      if r.Fail? {
        return;
      }
      r, sent := SetInt("renderingFlag", Int(renderingFlag as int));
    }
  }
}
