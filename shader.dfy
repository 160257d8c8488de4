/** The OpenGL shader's source handling: a single file holds several stages,
    each introduced by a `#type <stage>` line, and `pre_process` cuts it into
    one text per stage. Compiling and linking are GL calls and are not
    modelled; the constructor from separate sources keeps the stage map it
    passes to the compiler. */
module Shaders {
  import opened Wrappers
  import opened PyStrings

  /** `GL_VERTEX_SHADER` and `GL_FRAGMENT_SHADER`. */
  datatype ShaderStage = VertexShader | FragmentShader

  /** `shader_type_from_string`: "vertex" names the vertex stage, "fragment"
      and "pixel" the fragment stage, and any other word fails the
      assertion. */
  function ShaderTypeFromString(shaderType: string): (r: Result<ShaderStage>)
    ensures r == Ok(VertexShader) <==> shaderType == "vertex"
    ensures r == Ok(FragmentShader) <==> shaderType == "fragment" || shaderType == "pixel"
    ensures r.Err? ==> r.error == AssertionError("Unknown shader type")
  {
    if shaderType == "vertex" then Ok(VertexShader)
    else if shaderType in ["fragment", "pixel"] then Ok(FragmentShader)
    else Err(AssertionError("Unknown shader type"))
  }

  /** `line.startswith("#type")`. */
  predicate IsHeader(line: string)
  {
    StartsWith(line, "#type")
  }

  /** The stage a header names: the second single-space-separated token of
      the line, `line.split(" ")[1]`, which raises `IndexError` when the line
      has no space. */
  function HeaderStage(line: string): Result<ShaderStage>
  {
    var tokens := Split(line, ' ');
    if |tokens| < 2 then Err(IndexError) else ShaderTypeFromString(tokens[1])
  }

  /** A string has a single part exactly when it holds no separator. */
  lemma SplitSingle(s: string, sep: char)
    ensures |Split(s, sep)| == 1 <==> sep !in s
  {
    SplitJoins(s, sep);
    if sep !in s {
      SplitUnique(s, sep, [s]);
    }
  }

  /** A header fails with `IndexError` exactly when it holds no space, and
      otherwise names the stage its second token names. */
  lemma HeaderStageErrors(line: string)
    ensures HeaderStage(line) == Err(IndexError) <==> ' ' !in line
    ensures ' ' in line ==> HeaderStage(line) == ShaderTypeFromString(Split(line, ' ')[1])
  {
    SplitSingle(line, ' ');
  }

  /** A header with one space before the stage word names that stage. */
  lemma SingleSpacedHeader()
    ensures HeaderStage("#type vertex") == Ok(VertexShader)
  {
    var tokens := ["#type", "vertex"];
    assert Join(tokens, ' ') == "#type vertex";
    SplitUnique("#type vertex", ' ', tokens);
  }

  /** The tokens are separated by single spaces: a header written with two
      spaces before the stage word has an empty second token and fails the
      assertion. */
  lemma DoubleSpacedHeader()
    ensures HeaderStage("#type  vertex") == Err(AssertionError("Unknown shader type"))
  {
    var tokens := ["#type", "", "vertex"];
    assert Join(tokens, ' ') == "#type  vertex";
    SplitUnique("#type  vertex", ' ', tokens);
  }

  /** The loop's state: the stage texts so far, and the stage of the most
      recent header (`is_parsing` with `shader_type`), if any. */
  datatype ParseState = ParseState(sources: map<ShaderStage, string>, current: Option<ShaderStage>)

  /** The stage being parsed always has an entry. */
  predicate Consistent(st: ParseState)
  {
    st.current.Some? ==> st.current.value in st.sources
  }

  const Initial: ParseState := ParseState(map[], None)

  /** The stripped lines of the source, in order. */
  function Lines(source: string): seq<string>
  {
    var parts := Split(source, '\n');
    seq(|parts|, i requires 0 <= i < |parts| => Strip(parts[i]))
  }

  /** One iteration of the loop: an empty line is skipped, a header resets
      its stage's text and makes it current, and any other line is appended
      with a newline to the current stage, or dropped before the first
      header. */
  function Step(st: ParseState, line: string): (r: Result<ParseState>)
    requires Consistent(st)
    ensures r.Ok? ==> Consistent(r.value)
    ensures r.Err? ==> line != "" && IsHeader(line) && HeaderStage(line).Err?
  {
    if line == "" then Ok(st)
    else if IsHeader(line) then
      match HeaderStage(line)
      case Err(e) => Err(e)
      case Ok(stage) => Ok(ParseState(st.sources[stage := ""], Some(stage)))
    else if st.current.Some? then
      var stage := st.current.value;
      Ok(ParseState(st.sources[stage := st.sources[stage] + line + "\n"], st.current))
    else Ok(st)
  }

  /** The loop run over `lines` from `st`, stopping at the first error. */
  function Run(st: ParseState, lines: seq<string>): (r: Result<ParseState>)
    requires Consistent(st)
    ensures r.Ok? ==> Consistent(r.value)
  {
    if |lines| == 0 then Ok(st)
    else
      match Run(st, lines[..|lines| - 1])
      case Err(e) => Err(e)
      case Ok(s) => Step(s, lines[|lines| - 1])
  }

  /** What `pre_process(source)` returns, or the exception it raises. */
  function PreProcessSpec(source: string): Result<map<ShaderStage, string>>
  {
    match Run(Initial, Lines(source))
    case Err(e) => Err(e)
    case Ok(st) => Ok(st.sources)
  }

  /** `pre_process`. */
  method PreProcess(source: string) returns (r: Result<map<ShaderStage, string>>)
    ensures r == PreProcessSpec(source)
  {
    var lines := Lines(source);
    var shaderSources: map<ShaderStage, string> := map[];
    var isParsing := false;
    var shaderType := VertexShader;
    var i := 0;
    while i < |lines|
      invariant 0 <= i <= |lines|
      invariant isParsing ==> shaderType in shaderSources
      invariant Run(Initial, lines[..i])
                == Ok(ParseState(shaderSources, if isParsing then Some(shaderType) else None))
    {
      var line := lines[i];
      assert lines[..i + 1][..i] == lines[..i];
      i := i + 1;
      var outcome := ParseLine(shaderSources, isParsing, shaderType, line);
      if outcome.Err? {
        RunStopsAtError(Initial, lines[..i], lines[i..]);
        assert lines[..i] + lines[i..] == lines;
        return Err(outcome.error);
      }
      shaderSources, isParsing, shaderType := outcome.value.0, outcome.value.1, outcome.value.2;
    }
    assert lines[..i] == lines;
    r := Ok(shaderSources);
  }

  /** The body of the `pre_process` loop for one stripped line: skip a blank
      line, start a section at a header, append a line to the section being
      parsed, or ignore it before the first header. */
  method ParseLine(shaderSources: map<ShaderStage, string>, isParsing: bool, shaderType: ShaderStage,
                   line: string)
    returns (r: Result<(map<ShaderStage, string>, bool, ShaderStage)>)
    requires isParsing ==> shaderType in shaderSources
    ensures r.Ok? ==> r.value.1 ==> r.value.2 in r.value.0
    ensures Step(ParseState(shaderSources, if isParsing then Some(shaderType) else None), line)
            == if r.Err? then Err(r.error)
               else Ok(ParseState(r.value.0, if r.value.1 then Some(r.value.2) else None))
  {
    if line == "" {
      return Ok((shaderSources, isParsing, shaderType));
    } else if IsHeader(line) {
      var stage := HeaderStage(line);
      if stage.Err? {
        return Err(stage.error);
      }
      return Ok((shaderSources[stage.value := ""], true, stage.value));
    } else if isParsing {
      return Ok((shaderSources[shaderType := shaderSources[shaderType] + line + "\n"], isParsing, shaderType));
    }
    return Ok((shaderSources, isParsing, shaderType));
  }

  /** Running two pieces one after the other is running their
      concatenation. */
  lemma {:induction false} RunConcat(st: ParseState, a: seq<string>, b: seq<string>)
    requires Consistent(st)
    ensures Run(st, a + b) == match Run(st, a) case Err(e) => Err(e) case Ok(s) => Run(s, b)
    decreases |b|
  {
    if |b| > 0 {
      assert (a + b)[..|a + b| - 1] == a + b[..|b| - 1];
      RunConcat(st, a, b[..|b| - 1]);
    } else {
      assert a + b == a;
    }
  }

  /** An error ends the run with that error, whatever follows. */
  lemma RunStopsAtError(st: ParseState, a: seq<string>, b: seq<string>)
    requires Consistent(st) && Run(st, a).Err?
    ensures Run(st, a + b) == Run(st, a)
  {
    RunConcat(st, a, b);
  }

  predicate NoHeader(lines: seq<string>)
  {
    forall i :: 0 <= i < |lines| ==> !IsHeader(lines[i])
  }

  /** Lines before the first header are discarded and can never fail. */
  lemma {:induction false} PreambleIgnored(pre: seq<string>)
    requires NoHeader(pre)
    ensures Run(Initial, pre) == Ok(Initial)
  {
    if |pre| > 0 {
      PreambleIgnored(pre[..|pre| - 1]);
    }
  }

  /** So the result does not depend on anything before the first header. */
  lemma PreambleDiscarded(pre: seq<string>, rest: seq<string>)
    requires NoHeader(pre)
    ensures Run(Initial, pre + rest) == Run(Initial, rest)
  {
    RunConcat(Initial, pre, rest);
    PreambleIgnored(pre);
  }

  /** The text a section accumulates from its lines: each non-empty line
      followed by a newline, in order. */
  function SectionText(body: seq<string>): string
  {
    if |body| == 0 then ""
    else
      var last := body[|body| - 1];
      SectionText(body[..|body| - 1]) + (if last == "" then "" else last + "\n")
  }

  /** A header followed by lines that are not headers: the header's stage
      holds exactly the text of those lines (nothing, when there are none),
      replacing whatever it held, every other stage keeps its text, and the
      header's stage stays current. */
  lemma {:induction false} SectionAfterHeader(st: ParseState, header: string, body: seq<string>)
    requires Consistent(st) && header != "" && IsHeader(header) && HeaderStage(header).Ok?
    requires NoHeader(body)
    ensures Run(st, [header] + body)
            == Ok(ParseState(st.sources[HeaderStage(header).value := SectionText(body)],
                             Some(HeaderStage(header).value)))
    decreases |body|
  {
    var stage := HeaderStage(header).value;
    if |body| > 0 {
      var init := body[..|body| - 1];
      var last := body[|body| - 1];
      assert ([header] + body)[..|[header] + body| - 1] == [header] + init;
      SectionAfterHeader(st, header, init);
      var mid := ParseState(st.sources[stage := SectionText(init)], Some(stage));
      assert Run(st, [header] + body) == Step(mid, last);
      assert !IsHeader(last);
      if last != "" {
        assert SectionText(body) == SectionText(init) + last + "\n";
        assert mid.sources[stage := SectionText(init) + last + "\n"]
               == st.sources[stage := SectionText(body)];
      } else {
        assert SectionText(body) == SectionText(init) + "" == SectionText(init);
      }
    } else {
      assert [header] + body == [header];
      assert [header][..0] == [];
    }
  }

  /** A section as `pre_process` builds it: empty, or lines that each end in
      a newline, are non-empty and carry no surrounding whitespace. */
  predicate WellFormedSection(v: string)
  {
    && (|v| == 0 || v[|v| - 1] == '\n')
    && (|v| > 0 ==> !IsSpace(v[0]))
    && (forall k :: 0 <= k < |v| && v[k] == '\n' ==> k > 0 && !IsSpace(v[k - 1]))
    && (forall k :: 0 <= k < |v| - 1 && v[k] == '\n' ==> !IsSpace(v[k + 1]))
  }

  /** A stripped line, which holds no newline, appended with a newline keeps
      a section well formed. */
  lemma AppendLine(v: string, line: string)
    requires WellFormedSection(v) && line != "" && '\n' !in line
    requires !IsSpace(line[0]) && !IsSpace(line[|line| - 1])
    ensures WellFormedSection(v + line + "\n")
  {
    var w := v + line + "\n";
    assert forall k :: |v| <= k < |w| - 1 ==> w[k] == line[k - |v|];
  }

  predicate AllWellFormed(st: ParseState)
  {
    forall s :: s in st.sources ==> WellFormedSection(st.sources[s])
  }

  /** The lines hold no newline, and a non-empty line neither starts nor
      ends with whitespace. */
  predicate CleanLines(lines: seq<string>)
  {
    forall i :: 0 <= i < |lines| ==>
      && '\n' !in lines[i]
      && (lines[i] != "" ==> !IsSpace(lines[i][0]) && !IsSpace(lines[i][|lines[i]| - 1]))
  }

  /** The stripped parts of a newline split are clean lines. */
  lemma LinesAreClean(source: string)
    ensures CleanLines(Lines(source))
  {
    var parts := Split(source, '\n');
    var lines := Lines(source);
    forall i | 0 <= i < |lines|
      ensures '\n' !in lines[i]
      ensures lines[i] != "" ==> !IsSpace(lines[i][0]) && !IsSpace(lines[i][|lines[i]| - 1])
    {
      assert lines[i] == Strip(parts[i]);
      StrippedLineClean(parts[i]);
    }
  }

  /** A stripped piece of a line holds no line break and has no whitespace at
      either end. */
  lemma StrippedLineClean(part: string)
    requires '\n' !in part
    ensures '\n' !in Strip(part)
    ensures Strip(part) != "" ==> !IsSpace(Strip(part)[0]) && !IsSpace(Strip(part)[|Strip(part)| - 1])
  {
    StripBounds(part);
    var a, b :| 0 <= a <= b <= |part| && Strip(part) == part[a..b];
    assert forall k :: 0 <= k < b - a ==> part[a..b][k] == part[a + k];
  }

  /** One step over a clean line keeps every section well formed. */
  lemma StepWellFormed(st: ParseState, line: string)
    requires Consistent(st) && AllWellFormed(st) && '\n' !in line
    requires line != "" ==> !IsSpace(line[0]) && !IsSpace(line[|line| - 1])
    ensures Step(st, line).Ok? ==> AllWellFormed(Step(st, line).value)
  {
    if line != "" && !IsHeader(line) && st.current.Some? {
      AppendLine(st.sources[st.current.value], line);
    }
  }

  /** A run over clean lines keeps every section well formed. */
  lemma {:induction false} RunWellFormed(st: ParseState, lines: seq<string>)
    requires Consistent(st) && AllWellFormed(st) && CleanLines(lines)
    ensures Run(st, lines).Ok? ==> AllWellFormed(Run(st, lines).value)
  {
    if |lines| > 0 {
      var init := lines[..|lines| - 1];
      assert CleanLines(init);
      RunWellFormed(st, init);
      if Run(st, init).Ok? {
        StepWellFormed(Run(st, init).value, lines[|lines| - 1]);
      }
    }
  }

  /** The stages that header lines name. */
  function HeaderStages(lines: seq<string>): set<ShaderStage>
  {
    set i | 0 <= i < |lines| && IsHeader(lines[i]) && HeaderStage(lines[i]).Ok? :: HeaderStage(lines[i]).value
  }

  lemma HeaderStagesSnoc(lines: seq<string>)
    requires |lines| > 0
    ensures var last := lines[|lines| - 1];
            HeaderStages(lines)
            == HeaderStages(lines[..|lines| - 1])
               + if IsHeader(last) && HeaderStage(last).Ok? then {HeaderStage(last).value} else {}
  {
    var init := lines[..|lines| - 1];
    assert forall i :: 0 <= i < |init| ==> init[i] == lines[i];
  }

  /** A successful run adds exactly the stages its header lines name. */
  lemma {:induction false} RunKeys(st: ParseState, lines: seq<string>)
    requires Consistent(st) && Run(st, lines).Ok?
    ensures Run(st, lines).value.sources.Keys == st.sources.Keys + HeaderStages(lines)
  {
    if |lines| > 0 {
      RunKeys(st, lines[..|lines| - 1]);
      HeaderStagesSnoc(lines);
    }
  }

  /** `pre_process`'s keys are exactly the stages its header lines name. */
  lemma PreProcessKeys(source: string)
    requires PreProcessSpec(source).Ok?
    ensures PreProcessSpec(source).value.Keys == HeaderStages(Lines(source))
    ensures forall s :: s in PreProcessSpec(source).value ==> WellFormedSection(PreProcessSpec(source).value[s])
  {
    RunKeys(Initial, Lines(source));
    LinesAreClean(source);
    RunWellFormed(Initial, Lines(source));
  }

  class OpenGLShader {
    var rendererId: int
    var name: string
    /** The stage texts handed to the compiler. */
    var compiledSources: map<ShaderStage, string>

    /** `OpenGLShader()`: no program and an empty name. */
    constructor ()
      ensures rendererId == -1 && name == "" && compiledSources == map[]
    {
      rendererId := -1;
      name := "";
      compiledSources := map[];
    }

    /** `create_from_source`: compiles exactly the two given stages. The
        program handle the compiler returns is a parameter. */
    static method CreateFromSource(name: string, vertexSrc: string, fragmentSrc: string, program: int)
      returns (shader: OpenGLShader)
      ensures fresh(shader)
      ensures shader.name == name && shader.rendererId == program
      ensures shader.compiledSources.Keys == {VertexShader, FragmentShader}
      ensures shader.compiledSources[VertexShader] == vertexSrc
      ensures shader.compiledSources[FragmentShader] == fragmentSrc
    {
      var shaderSources := map[VertexShader := vertexSrc, FragmentShader := fragmentSrc];
      shader := new OpenGLShader();
      shader.name := name;
      shader.compiledSources := shaderSources;
      shader.rendererId := program;
    }
  }
}
