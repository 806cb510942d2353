// Shader variants: the 32-bit string hash, the `#define` prefix that selects
// a variant, and the material's cache of linked programs keyed by the sum of
// the keyword hashes.

module Shaders {
  import opened JsMath
  import opened Wrappers

  /** A UTF-16 code unit, what charCodeAt returns. */
  type CodeUnit = c: int | 0 <= c < 0x1_0000

  /** A string as the script sees it: a sequence of UTF-16 code units. */
  type JsString = seq<CodeUnit>

  /** The code units of a literal made of Basic Multilingual Plane characters. */
  function Units(s: string): (r: JsString)
    requires forall i :: 0 <= i < |s| ==> s[i] as int < 0x1_0000
    ensures |r| == |s| && forall i :: 0 <= i < |s| ==> r[i] == s[i] as int
  {
    seq(|s|, i requires 0 <= i < |s| => s[i] as int)
  }

  // ---------------------------------------------------------------- hashCode

  /** The polynomial hash sum of s[i] * 31^(|s|-1-i), on unbounded integers. */
  function Poly31(s: JsString): int {
    if s == [] then 0 else 31 * Poly31(s[..|s| - 1]) + s[|s| - 1]
  }

  /**
   * The value hashCode computes: the polynomial hash reduced to a signed
   * 32-bit integer.
   */
  function StringHash(s: JsString): (h: int)
    ensures IsInt32(h)
    ensures (Poly31(s) - h) % TWO_32 == 0
  {
    ToInt32(Poly31(s))
  }

  lemma {:induction false} ModZeroSum(a: int, b: int)
    requires a % TWO_32 == 0 && b % TWO_32 == 0
    ensures (a + b) % TWO_32 == 0
  {
    var qa := a / TWO_32;
    var qb := b / TWO_32;
    assert a + b == (qa + qb) * TWO_32;
    MultipleMod(qa + qb);
  }

  lemma {:induction false} ModZeroScale(a: int, k: int)
    requires a % TWO_32 == 0
    ensures (k * a) % TWO_32 == 0
  {
    var qa := a / TWO_32;
    assert k * a == (k * qa) * TWO_32;
    MultipleMod(k * qa);
  }

  /** One iteration of hashCode's loop turns the hash of t into the hash of t + [c]. */
  lemma {:induction false} HashStep(t: JsString, c: CodeUnit)
    ensures ToInt32(ShiftLeft(StringHash(t), 5) - StringHash(t) + c) == StringHash(t + [c])
  {
    var p := Poly31(t);
    var h := StringHash(t);
    var sh := ShiftLeft(h, 5);
    assert (t + [c])[..|t|] == t;
    assert Poly31(t + [c]) == 31 * p + c;
    assert Pow2(5) == 32;
    assert (h * 32 - sh) % TWO_32 == 0;
    ModZeroScale(p - h, 31);
    ModZeroScale(h * 32 - sh, -1);
    assert (sh - h + c) - (31 * p + c) == -1 * (h * 32 - sh) + (-31) * (p - h);
    ModZeroScale(p - h, -31);
    ModZeroSum(-1 * (h * 32 - sh), (-31) * (p - h));
    ToInt32Congruent(sh - h + c, 31 * p + c);
  }

  /**
   * hashCode: 0 for the empty string; otherwise, for each code unit,
   * hash = (hash << 5) - hash + c truncated to 32 bits. The result is the
   * polynomial hash (base 31) reduced to a signed 32-bit integer.
   */
  method HashCode(s: JsString) returns (hash: int)
    ensures hash == ToInt32(Poly31(s))
    ensures IsInt32(hash)
    ensures s == [] ==> hash == 0
  {
    if |s| == 0 {
      return 0;
    }
    hash := 0;
    for i := 0 to |s|
      invariant hash == StringHash(s[..i])
    {
      HashStep(s[..i], s[i]);
      assert s[..i + 1] == s[..i] + [s[i]];
      hash := ToInt32(ShiftLeft(hash, 5) - hash + s[i]);
    }
    assert s[..|s|] == s;
  }

  const SHADING: JsString := Units("SHADING")
  const BLOOM: JsString := Units("BLOOM")
  const SUNRAYS: JsString := Units("SUNRAYS")

  lemma Poly31Prefix(s: JsString, k: nat)
    requires k < |s|
    ensures Poly31(s[..k + 1]) == 31 * Poly31(s[..k]) + s[k]
  {
    assert s[..k + 1][..k] == s[..k];
  }

  lemma ShadingHash()
    ensures StringHash(SHADING) == -1523179638
  {
    var s: JsString := [83, 72, 65, 68, 73, 78, 71];
    assert SHADING == s;
    assert s[..0] == [] && s[..7] == s;
    Poly31Prefix(s, 0);
    Poly31Prefix(s, 1);
    Poly31Prefix(s, 2);
    Poly31Prefix(s, 3);
    Poly31Prefix(s, 4);
    Poly31Prefix(s, 5);
    Poly31Prefix(s, 6);
    assert Poly31(s) == 75786231690;
  }

  lemma BloomHash()
    ensures StringHash(BLOOM) == 63294947
  {
    var s: JsString := [66, 76, 79, 79, 77];
    assert BLOOM == s;
    assert s[..0] == [] && s[..5] == s;
    Poly31Prefix(s, 0);
    Poly31Prefix(s, 1);
    Poly31Prefix(s, 2);
    Poly31Prefix(s, 3);
    Poly31Prefix(s, 4);
    assert Poly31(s) == 63294947;
  }

  lemma SunraysHash()
    ensures StringHash(SUNRAYS) == -1138585163
  {
    var s: JsString := [83, 85, 78, 82, 65, 89, 83];
    assert SUNRAYS == s;
    assert s[..0] == [] && s[..7] == s;
    Poly31Prefix(s, 0);
    Poly31Prefix(s, 1);
    Poly31Prefix(s, 2);
    Poly31Prefix(s, 3);
    Poly31Prefix(s, 4);
    Poly31Prefix(s, 5);
    Poly31Prefix(s, 6);
    assert Poly31(s) == 76170826165;
  }

  /** The hashes of the three display keywords. */
  lemma DisplayHashes()
    ensures StringHash(SHADING) == -1523179638
    ensures StringHash(BLOOM) == 63294947
    ensures StringHash(SUNRAYS) == -1138585163
  {
    ShadingHash();
    BloomHash();
    SunraysHash();
  }

  // ------------------------------------------------------------ keyword keys

  /** The sum of hash(k) over a keyword list, added up from the front. */
  function HashSum(keywords: seq<JsString>, hash: JsString -> int): int {
    if keywords == [] then 0
    else HashSum(keywords[..|keywords| - 1], hash) + hash(keywords[|keywords| - 1])
  }

  /** The cache key of a keyword list: the plain (not 32-bit) sum of the keyword hashes. */
  function KeywordsKey(keywords: seq<JsString>): int {
    HashSum(keywords, StringHash)
  }

  /** One more keyword adds its hash to the sum. */
  lemma HashSumSnoc(a: seq<JsString>, x: JsString, hash: JsString -> int)
    ensures HashSum(a + [x], hash) == HashSum(a, hash) + hash(x)
  {
    assert (a + [x])[..|a|] == a;
  }

  lemma {:induction false} HashSumConcat(a: seq<JsString>, b: seq<JsString>, hash: JsString -> int)
    ensures HashSum(a + b, hash) == HashSum(a, hash) + HashSum(b, hash)
    decreases |b|
  {
    if b == [] {
      assert a + b == a;
    } else {
      var b', x := b[..|b| - 1], b[|b| - 1];
      assert b == b' + [x];
      assert a + b == (a + b') + [x];
      HashSumSnoc(a + b', x, hash);
      HashSumSnoc(b', x, hash);
      HashSumConcat(a, b', hash);
    }
  }

  /** Taking out the keyword at j takes its hash out of the sum. */
  lemma RemoveAt(b: seq<JsString>, j: nat, hash: JsString -> int)
    requires j < |b|
    ensures HashSum(b, hash) == HashSum(b[..j] + b[j + 1..], hash) + hash(b[j])
  {
    var front, back := b[..j], b[j + 1..];
    var upTo := b[..j + 1];
    assert upTo == front + [b[j]];
    assert b == upTo + back;
    HashSumConcat(upTo, back, hash);
    HashSumSnoc(front, b[j], hash);
    HashSumConcat(front, back, hash);
  }

  /** Taking out the keyword at j removes one copy of it from the multiset. */
  lemma RemoveAtMultiset(b: seq<JsString>, j: nat)
    requires j < |b|
    ensures multiset(b[..j] + b[j + 1..]) == multiset(b) - multiset{b[j]}
  {
    var front, back := b[..j], b[j + 1..];
    assert b == (front + [b[j]]) + back;
  }

  /** The sum does not depend on the order of the keywords. */
  lemma {:induction false} HashSumPermutation(a: seq<JsString>, b: seq<JsString>, hash: JsString -> int)
    requires multiset(a) == multiset(b)
    ensures HashSum(a, hash) == HashSum(b, hash)
    decreases |a|
  {
    if a != [] {
      var x := a[|a| - 1];
      var a' := a[..|a| - 1];
      assert a == a' + [x];
      assert multiset(a) == multiset(a') + multiset{x};
      assert x in multiset(b);
      var j :| 0 <= j < |b| && b[j] == x;
      var b' := b[..j] + b[j + 1..];
      RemoveAtMultiset(b, j);
      RemoveAt(b, j, hash);
      HashSumPermutation(a', b', hash);
      HashSumSnoc(a', x, hash);
    }
  }

  /** The key does not depend on the order of the keywords: any permutation hits the same cache entry. */
  lemma KeywordsKeyPermutation(a: seq<JsString>, b: seq<JsString>)
    requires multiset(a) == multiset(b)
    ensures KeywordsKey(a) == KeywordsKey(b)
  {
    HashSumPermutation(a, b, StringHash);
  }

  /** The key loop of setKeywords: hash += hashCode(keyword) for each keyword, in order. */
  method KeywordsHash(keywords: seq<JsString>) returns (hash: int)
    ensures hash == KeywordsKey(keywords)
    ensures keywords == [] ==> hash == 0
  {
    hash := 0;
    for i := 0 to |keywords|
      invariant hash == KeywordsKey(keywords[..i])
    {
      var h := HashCode(keywords[i]);
      assert keywords[..i + 1][..i] == keywords[..i];
      hash := hash + h;
    }
    assert keywords[..|keywords|] == keywords;
  }

  /** Different keyword lists can share a key: "Aa" and "BB" hash alike, so the cache would conflate them. */
  lemma KeyCollision()
    ensures KeywordsKey([Units("Aa")]) == KeywordsKey([Units("BB")])
    ensures [Units("Aa")] != [Units("BB")]
  {
    assert [Units("Aa")][..0] == [] && [Units("BB")][..0] == [];
    assert Units("Aa")[..1] == Units("A") && Units("BB")[..1] == Units("B");
    assert Units("A")[..0] == [] && Units("B")[..0] == [];
    assert Units("Aa")[0] != Units("BB")[0];
  }

  /** The keyword list updateKeywords builds from the display flags, in its order. */
  function DisplayKeywords(shading: bool, bloom: bool, sunrays: bool): (ks: seq<JsString>)
    ensures (SHADING in ks) == shading && (BLOOM in ks) == bloom && (SUNRAYS in ks) == sunrays
    ensures |ks| == (if shading then 1 else 0) + (if bloom then 1 else 0) + (if sunrays then 1 else 0)
  {
    assert SHADING[0] != BLOOM[0] && SHADING[1] != SUNRAYS[1] && BLOOM[0] != SUNRAYS[0];
    (if shading then [SHADING] else []) + (if bloom then [BLOOM] else []) + (if sunrays then [SUNRAYS] else [])
  }

  /** All eight display variants. */
  function DisplayVariants(): seq<seq<JsString>> {
    [DisplayKeywords(false, false, false), DisplayKeywords(true, false, false),
     DisplayKeywords(false, true, false), DisplayKeywords(true, true, false),
     DisplayKeywords(false, false, true), DisplayKeywords(true, false, true),
     DisplayKeywords(false, true, true), DisplayKeywords(true, true, true)]
  }

  lemma {:induction false} DisplayVariantKeys(shading: bool, bloom: bool, sunrays: bool)
    ensures KeywordsKey(DisplayKeywords(shading, bloom, sunrays))
         == (if shading then -1523179638 else 0) + (if bloom then 63294947 else 0)
            + (if sunrays then -1138585163 else 0)
  {
    DisplayHashes();
    var s := if shading then [SHADING] else [];
    var b := if bloom then [BLOOM] else [];
    var r := if sunrays then [SUNRAYS] else [];
    HashSumConcat(s + b, r, StringHash);
    HashSumConcat(s, b, StringHash);
    assert [SHADING][..0] == [] && [BLOOM][..0] == [] && [SUNRAYS][..0] == [];
  }

  /**
   * The three display keywords never collide: different flag settings give
   * different cache keys, so each display variant gets its own program.
   */
  lemma DisplayKeysDistinct(s1: bool, b1: bool, r1: bool, s2: bool, b2: bool, r2: bool)
    requires KeywordsKey(DisplayKeywords(s1, b1, r1)) == KeywordsKey(DisplayKeywords(s2, b2, r2))
    ensures s1 == s2 && b1 == b2 && r1 == r2
  {
    DisplayVariantKeys(s1, b1, r1);
    DisplayVariantKeys(s2, b2, r2);
  }

  // ------------------------------------------------------------- addKeywords

  const DEFINE: JsString := Units("#define ")
  const NEWLINE: JsString := Units("\n")

  function DefineLine(keyword: JsString): JsString {
    DEFINE + keyword + NEWLINE
  }

  /** The concatenated define lines of a keyword list, in list order. */
  function Defines(keywords: seq<JsString>): JsString {
    if keywords == [] then [] else Defines(keywords[..|keywords| - 1]) + DefineLine(keywords[|keywords| - 1])
  }

  /**
   * addKeywords: no keyword list leaves the source as it is; otherwise every
   * keyword becomes a `#define` line and the lines precede the source.
   */
  function AddKeywords(source: JsString, keywords: Option<seq<JsString>>): (r: JsString)
    ensures keywords.None? ==> r == source
    ensures |source| <= |r| && r[|r| - |source|..] == source
    ensures keywords.Some? ==> r[..|r| - |source|] == Defines(keywords.value)
  {
    match keywords
    case None => source
    case Some(ks) =>
      var prefix := Defines(ks);
      assert (prefix + source)[..|prefix|] == prefix;
      prefix + source
  }

  lemma {:induction false} DefinesConcat(a: seq<JsString>, b: seq<JsString>)
    ensures Defines(a + b) == Defines(a) + Defines(b)
    decreases |b|
  {
    if b == [] {
      assert a + b == a;
    } else {
      var b', x := b[..|b| - 1], b[|b| - 1];
      assert b == b' + [x];
      assert a + b == (a + b') + [x];
      DefinesSnoc(a + b', x);
      DefinesSnoc(b', x);
      DefinesConcat(a, b');
    }
  }

  /** One more keyword appends its define line. */
  lemma DefinesSnoc(a: seq<JsString>, x: JsString)
    ensures Defines(a + [x]) == Defines(a) + DefineLine(x)
  {
    assert (a + [x])[..|a|] == a;
  }

  /** Where the define line of keyword i starts in the prefix. */
  function DefineOffset(keywords: seq<JsString>, i: nat): nat
    requires i <= |keywords|
  {
    |Defines(keywords[..i])|
  }

  /** The i-th keyword's `#define` line sits in the result right after the lines of the keywords before it. */
  lemma {:induction false} DefineLineAt(source: JsString, keywords: seq<JsString>, i: nat)
    requires i < |keywords|
    ensures var r := AddKeywords(source, Some(keywords));
            var o := DefineOffset(keywords, i);
            o + |DefineLine(keywords[i])| <= |r| && r[o..o + |DefineLine(keywords[i])|] == DefineLine(keywords[i])
  {
    var r := AddKeywords(source, Some(keywords));
    assert keywords == keywords[..i] + [keywords[i]] + keywords[i + 1..];
    DefinesConcat(keywords[..i] + [keywords[i]], keywords[i + 1..]);
    DefinesConcat(keywords[..i], [keywords[i]]);
    assert Defines([keywords[i]]) == DefineLine(keywords[i]) by {
      var single: seq<JsString> := [keywords[i]];
      assert single[..0] == [];
    }
    var o := DefineOffset(keywords, i);
    var line := DefineLine(keywords[i]);
    assert r == Defines(keywords[..i]) + line + Defines(keywords[i + 1..]) + source;
    assert r[o..o + |line|] == line;
  }

  /** An empty keyword list leaves the source unchanged, like no list at all. */
  lemma AddNoKeywords(source: JsString)
    ensures AddKeywords(source, Some([])) == AddKeywords(source, None)
  {
  }

  // --------------------------------------------------------- programs, cache

  datatype ShaderKind = VertexShader | FragmentShader

  /** A compiled shader object: its kind and the source it was compiled from. */
  class Shader {
    const kind: ShaderKind
    const source: JsString

    constructor (kind: ShaderKind, source: JsString)
      ensures this.kind == kind && this.source == source
    {
      this.kind := kind;
      this.source := source;
    }
  }

  /** compileShader: the source with the keyword defines prepended, compiled as the given kind. */
  method CompileShader(kind: ShaderKind, source: JsString, keywords: Option<seq<JsString>>) returns (shader: Shader)
    ensures fresh(shader)
    ensures shader.kind == kind && shader.source == AddKeywords(source, keywords)
  {
    shader := new Shader(kind, AddKeywords(source, keywords));
  }

  /** The active-uniform table the driver reports for a linked program: name to location. */
  type UniformTable = map<JsString, int>

  /**
   * What the driver reports as active uniforms for a program linked from a
   * vertex and a fragment source: a fact about the shader compiler, so it is a
   * parameter of the model.
   */
  type Introspection = (JsString, JsString) -> UniformTable

  /** A linked program, with the keyword list it was compiled for and its uniform table. */
  class Program {
    const vertexShader: Shader
    const fragmentShader: Shader
    const keywords: seq<JsString>
    const uniforms: UniformTable

    constructor (vertexShader: Shader, fragmentShader: Shader, keywords: seq<JsString>, uniforms: UniformTable)
      ensures this.vertexShader == vertexShader && this.fragmentShader == fragmentShader
      ensures this.keywords == keywords && this.uniforms == uniforms
    {
      this.vertexShader := vertexShader;
      this.fragmentShader := fragmentShader;
      this.keywords := keywords;
      this.uniforms := uniforms;
    }
  }

  /** The program's fragment shader is the source specialised to the program's keywords. */
  predicate CompiledFrom(program: Program, fragmentShaderSource: JsString) {
    program.fragmentShader.source == AddKeywords(fragmentShaderSource, Some(program.keywords))
  }

  /**
   * Every cached program sits under the key of the keyword list it was
   * compiled with and was compiled from the given sources.
   */
  predicate CacheValid(programs: map<int, Program>, vertexShader: Shader, fragmentShaderSource: JsString) {
    forall key :: key in programs ==>
      KeywordsKey(programs[key].keywords) == key
      && programs[key].vertexShader == vertexShader
      && CompiledFrom(programs[key], fragmentShaderSource)
  }

  /** The active program is a cached one and the uniform table is its table (empty while there is none). */
  predicate ActiveValid(programs: map<int, Program>, activeProgram: Program?, uniforms: UniformTable) {
    (activeProgram == null ==> uniforms == map[])
    && (activeProgram != null ==> activeProgram in programs.Values && uniforms == activeProgram.uniforms)
  }

  /** Caching a program under its own key keeps the cache valid and every program cached before. */
  lemma CacheInsert(programs: map<int, Program>, vertexShader: Shader, fragmentShaderSource: JsString,
                    hash: int, program: Program)
    requires CacheValid(programs, vertexShader, fragmentShaderSource) && hash !in programs
    requires KeywordsKey(program.keywords) == hash && program.vertexShader == vertexShader
    requires CompiledFrom(program, fragmentShaderSource)
    ensures CacheValid(programs[hash := program], vertexShader, fragmentShaderSource)
    ensures forall active: Program?, uniforms: UniformTable :: ActiveValid(programs, active, uniforms)
              ==> ActiveValid(programs[hash := program], active, uniforms)
  {
    ValuesInsert(programs, hash, program);
  }

  /** Adding a new key to a map keeps every value it held. */
  lemma ValuesInsert<K, V>(m: map<K, V>, k: K, v: V)
    requires k !in m
    ensures m.Values <= m[k := v].Values
  {
    forall x | x in m.Values
      ensures x in m[k := v].Values
    {
      var key :| key in m && m[key] == x;
      assert m[k := v][key] == x;
    }
  }

  /** A shader with compile-time variants, each linked once and cached. */
  class Material {
    const vertexShader: Shader
    const fragmentShaderSource: JsString
    var programs: map<int, Program>
    var activeProgram: Program?
    var uniforms: UniformTable

    /**
     * Every cached program sits under the key of the keyword list it was
     * compiled with, was compiled from this material's sources, and the
     * uniform table is the active program's (empty while there is none).
     */
    ghost predicate Valid()
      reads this
    {
      CacheValid(programs, vertexShader, fragmentShaderSource)
      && ActiveValid(programs, activeProgram, uniforms)
    }

    constructor (vertexShader: Shader, fragmentShaderSource: JsString)
      ensures Valid()
      ensures this.vertexShader == vertexShader && this.fragmentShaderSource == fragmentShaderSource
      ensures programs == map[] && activeProgram == null && uniforms == map[]
    {
      this.vertexShader := vertexShader;
      this.fragmentShaderSource := fragmentShaderSource;
      programs := map[];
      activeProgram := null;
      uniforms := map[];
    }

    /**
     * setKeywords: compile and link a variant only when no program is cached
     * under the keywords' key; then make the cached program active, and
     * re-read the uniform table only when the active program changes.
     */
    method SetKeywords(keywords: seq<JsString>, introspect: Introspection)
      requires Valid()
      modifies this
      ensures Valid()
      ensures KeywordsKey(keywords) in programs && activeProgram == programs[KeywordsKey(keywords)]
      ensures KeywordsKey(activeProgram.keywords) == KeywordsKey(keywords)
      ensures KeywordsKey(keywords) in old(programs) ==> programs == old(programs)
      ensures KeywordsKey(keywords) !in old(programs) ==>
                fresh(activeProgram) && activeProgram.keywords == keywords
                && programs == old(programs)[KeywordsKey(keywords) := activeProgram]
      ensures KeywordsKey(keywords) in old(programs) && old(programs)[KeywordsKey(keywords)] == old(activeProgram) ==>
                activeProgram == old(activeProgram) && uniforms == old(uniforms)
    {
      var hash := KeywordsHash(keywords);
      var program := Cached(hash, keywords, introspect);
      Activate(program);
    }

    /** Compiles the fragment source specialised to the keywords and links it with the vertex shader. */
    method Compile(keywords: seq<JsString>, introspect: Introspection) returns (program: Program)
      ensures fresh(program) && program.keywords == keywords && program.vertexShader == vertexShader
      ensures CompiledFrom(program, fragmentShaderSource)
    {
      var fragmentShader := CompileShader(FragmentShader, fragmentShaderSource, Some(keywords));
      program := new Program(vertexShader, fragmentShader, keywords,
                             introspect(vertexShader.source, fragmentShader.source));
    }

    /** The cache half of setKeywords: the program under hash, compiled and linked if there was none. */
    method Cached(hash: int, keywords: seq<JsString>, introspect: Introspection) returns (program: Program)
      requires Valid() && hash == KeywordsKey(keywords)
      modifies this
      ensures Valid() && hash in programs && program == programs[hash]
      ensures activeProgram == old(activeProgram) && uniforms == old(uniforms)
      ensures hash in old(programs) ==> programs == old(programs)
      ensures hash !in old(programs) ==>
                fresh(program) && program.keywords == keywords && programs == old(programs)[hash := program]
    {
      if hash in programs {
        program := programs[hash];
      } else {
        program := Compile(keywords, introspect);
        CacheInsert(programs, vertexShader, fragmentShaderSource, hash, program);
        programs := programs[hash := program];
      }
    }

    /** The activation half of setKeywords: the uniform table is re-read only when the program changes. */
    method Activate(program: Program)
      requires Valid() && program in programs.Values
      modifies this
      ensures Valid() && activeProgram == program && programs == old(programs)
      ensures program == old(activeProgram) ==> uniforms == old(uniforms)
    {
      if program != activeProgram {
        uniforms := program.uniforms;
        activeProgram := program;
      }
    }
  }
}
