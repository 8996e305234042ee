/** `construct_system_assistant_prompt`: the seed instruction of a new chat. */
module Prompts {
  import opened Errors

  /** A template after its `{name}` placeholders have been parsed out. */
  datatype Segment = Text(text: string) | Field(name: string)

  const Intro: string := "\nYou are built-in OS assistant that helps user with usage of his OS\n\nContext:\n\n"

  const Rules: string :=
    "\nImportant:\n\n"
    + "1. If you are using provided tools that require path in their parameters - always pass this path.\n"
    + "2. Give short and precise anwers.\n"
    + "3. Do not use Markdown or HTML for formatting, answer in plain text.\n"
    + "4. Answer like a human and do not read code exactly.\n"

  /** The assistant prompt template with its four placeholders. */
  const Template: seq<Segment> := [
    Text(Intro + "OS: "), Field("os"),
    Text("\nDistribution: "), Field("distribution"),
    Text("\nCurrent working directory: "), Field("current_dir"),
    Text("\nDirectory list: "), Field("directory_list"),
    Text("\n" + Rules)
  ]

  /** The placeholder names a template uses. */
  function FieldNames(template: seq<Segment>): set<string> {
    if template == [] then {}
    else (if template[0].Field? then {template[0].name} else {}) + FieldNames(template[1..])
  }

  /** `str.format_map` on a parsed template: text is copied, each field is
      replaced by its value, and a field without a value raises KeyError. */
  function FormatMap(template: seq<Segment>, values: map<string, string>): (r: Result<string>)
    ensures r.Success? <==> FieldNames(template) <= values.Keys
    ensures r.Failure? ==> r.error == KeyError
  {
    if template == [] then Success("")
    else
      var rest := FormatMap(template[1..], values);
      match template[0]
      case Text(t) =>
        if rest.Success? then Success(t + rest.value) else rest
      case Field(name) =>
        if name !in values then Failure(KeyError)
        else if rest.Success? then Success(values[name] + rest.value) else rest
  }

  /** The text a single segment contributes. */
  function Render(s: Segment, values: map<string, string>): string
    requires s.Field? ==> s.name in values
  {
    match s
    case Text(t) => t
    case Field(name) => values[name]
  }

  lemma FormatMapCons(s: Segment, rest: seq<Segment>, values: map<string, string>)
    requires s.Field? ==> s.name in values
    requires FormatMap(rest, values).Success?
    ensures FormatMap([s] + rest, values) == Success(Render(s, values) + FormatMap(rest, values).value)
  {
    assert ([s] + rest)[0] == s;
    assert ([s] + rest)[1..] == rest;
  }

  /** Formatting distributes over concatenation of templates. */
  lemma {:induction false} FormatMapConcat(a: seq<Segment>, b: seq<Segment>, values: map<string, string>)
    requires FormatMap(a, values).Success? && FormatMap(b, values).Success?
    ensures FormatMap(a + b, values) == Success(FormatMap(a, values).value + FormatMap(b, values).value)
  {
    if a == [] {
      assert a + b == b;
      assert "" + FormatMap(b, values).value == FormatMap(b, values).value;
    } else {
      var x := FormatMap(a[1..], values);
      var y := FormatMap(b, values).value;
      assert a == [a[0]] + a[1..];
      FormatMapCons(a[0], a[1..], values);
      FormatMapConcat(a[1..], b, values);
      assert a + b == [a[0]] + (a[1..] + b);
      FormatMapCons(a[0], a[1..] + b, values);
      var h := Render(a[0], values);
      assert h + (x.value + y) == (h + x.value) + y;
    }
  }

  /** The four values after the fallbacks have been applied. */
  datatype PromptArgs = PromptArgs(operatingSystem: string, distribution: string, currentDir: string, directoryList: seq<string>)

  /** What the platform probes would return: `platform.system()`, the
      `NAME` entry of `platform.freedesktop_os_release()`, the package
      root `ROOT`, and `os.listdir()`. */
  datatype Platform = Platform(system: string, osReleaseName: string, root: string, listing: seq<string>)

  /** Python truthiness of an optional string: neither None nor ''. */
  predicate TruthyString(x: Option<string>) {
    x.Some? && x.value != ""
  }

  /** Python truthiness of an optional list: neither None nor []. */
  predicate TruthyList(x: Option<seq<string>>) {
    x.Some? && x.value != []
  }

  /** The `or` fallbacks. `current_dir` is a `pathlib.Path`, which is
      always truthy, so only None falls back to `ROOT`. */
  function ResolveArgs(operatingSystem: Option<string>, distribution: Option<string>, currentDir: Option<string>,
                       directoryList: Option<seq<string>>, platform: Platform): (a: PromptArgs)
    ensures a.operatingSystem == if TruthyString(operatingSystem) then operatingSystem.value else platform.system
    ensures a.distribution == if TruthyString(distribution) then distribution.value else platform.osReleaseName
    ensures a.currentDir == if currentDir.Some? then currentDir.value else platform.root
    ensures a.directoryList == if TruthyList(directoryList) then directoryList.value else platform.listing
  {
    PromptArgs(
      if TruthyString(operatingSystem) then operatingSystem.value else platform.system,
      if TruthyString(distribution) then distribution.value else platform.osReleaseName,
      if currentDir.Some? then currentDir.value else platform.root,
      if TruthyList(directoryList) then directoryList.value else platform.listing)
  }

  /** Python's falsy values fall back: `''` for a string and `[]` for a
      list behave like None, and with nothing given every value is probed.
      A given working directory is kept whatever its text, since a Path is
      never falsy. */
  lemma FalsyArgumentsFallBack(operatingSystem: Option<string>, distribution: Option<string>, currentDir: Option<string>,
                               directoryList: Option<seq<string>>, platform: Platform)
    ensures ResolveArgs(Some(""), distribution, currentDir, directoryList, platform)
         == ResolveArgs(None, distribution, currentDir, directoryList, platform)
    ensures ResolveArgs(operatingSystem, Some(""), currentDir, directoryList, platform)
         == ResolveArgs(operatingSystem, None, currentDir, directoryList, platform)
    ensures ResolveArgs(operatingSystem, distribution, currentDir, Some([]), platform)
         == ResolveArgs(operatingSystem, distribution, currentDir, None, platform)
    ensures ResolveArgs(None, None, None, None, platform)
         == PromptArgs(platform.system, platform.osReleaseName, platform.root, platform.listing)
    ensures currentDir.Some? ==> ResolveArgs(operatingSystem, distribution, currentDir, directoryList, platform).currentDir == currentDir.value
  {
  }

  /** Truthy arguments are kept as given, whatever the probes would say. */
  lemma TruthyArgumentsKept(operatingSystem: string, distribution: string, currentDir: string,
                            directoryList: seq<string>, platform: Platform)
    requires operatingSystem != "" && distribution != "" && directoryList != []
    ensures ResolveArgs(Some(operatingSystem), Some(distribution), Some(currentDir), Some(directoryList), platform)
         == PromptArgs(operatingSystem, distribution, currentDir, directoryList)
  {
  }

  /** `repr` of a string without quotes or backslashes. */
  function Quote(s: string): string {
    "'" + s + "'"
  }

  function ReprItems(xs: seq<string>): string {
    if xs == [] then ""
    else if |xs| == 1 then Quote(xs[0])
    else Quote(xs[0]) + ", " + ReprItems(xs[1..])
  }

  /** `repr` of a list of such strings, as `format_map` renders it: `['a', 'b']`. */
  function ReprList(xs: seq<string>): string {
    "[" + ReprItems(xs) + "]"
  }

  function TemplateValues(a: PromptArgs): map<string, string> {
    map["os" := a.operatingSystem, "distribution" := a.distribution,
        "current_dir" := a.currentDir, "directory_list" := ReprList(a.directoryList)]
  }

  /** The template is filled from a complete value map, so `format_map` cannot fail. */
  lemma TemplateFieldsCovered(a: PromptArgs)
    ensures FormatMap(Template, TemplateValues(a)).Success?
  {
    TemplateFrame(TemplateValues(a));
  }

  /** A prompt text that opens with the introduction and closes with the rules. */
  predicate Framed(p: string) {
    |Intro| <= |p| && p[..|Intro|] == Intro && |Rules| <= |p| && p[|p| - |Rules|..] == Rules
  }

  /** Filled from any complete value map, the template opens with the
      introduction and closes with the rules. */
  lemma TemplateFrame(v: map<string, string>)
    requires "os" in v && "distribution" in v && "current_dir" in v && "directory_list" in v
    ensures FormatMap(Template, v).Success?
    ensures Framed(FormatMap(Template, v).value)
  {
    var p0, p1, p2, p3, p4 := Intro + "OS: ", "\nDistribution: ", "\nCurrent working directory: ", "\nDirectory list: ",
                              "\n" + Rules;
    assert Template == [Text(p0), Field("os"), Text(p1), Field("distribution"), Text(p2), Field("current_dir"),
                        Text(p3), Field("directory_list"), Text(p4)];
    FourFieldLayout(p0, p1, p2, p3, p4, v);
    LayoutFrame(Intro, "OS: ", v["os"], p1, v["distribution"], p2, v["current_dir"], p3, v["directory_list"], "\n", Rules);
  }

  function ConstructSystemAssistantPrompt(operatingSystem: Option<string>, distribution: Option<string>,
                                          currentDir: Option<string>, directoryList: Option<seq<string>>,
                                          platform: Platform): (p: string)
    ensures Framed(p)
  {
    var v := TemplateValues(ResolveArgs(operatingSystem, distribution, currentDir, directoryList, platform));
    TemplateFrame(v);
    FormatMap(Template, v).value
  }

  /** A text followed by a field contributes the text, then the field's value. */
  lemma TextFieldCons(t: string, name: string, rest: seq<Segment>, values: map<string, string>)
    requires name in values && FormatMap(rest, values).Success?
    ensures FormatMap([Text(t), Field(name)] + rest, values)
            == Success(t + values[name] + FormatMap(rest, values).value)
  {
    FormatMapCons(Field(name), rest, values);
    assert [Text(t), Field(name)] + rest == [Text(t)] + ([Field(name)] + rest);
    FormatMapCons(Text(t), [Field(name)] + rest, values);
    var x := FormatMap(rest, values).value;
    assert t + (values[name] + x) == t + values[name] + x;
  }

  /** Any template of the prompt's shape (five texts around the four
      fields) formats to its texts with the field values spliced in. */
  lemma FourFieldLayout(p0: string, p1: string, p2: string, p3: string, p4: string, values: map<string, string>)
    requires "os" in values && "distribution" in values && "current_dir" in values && "directory_list" in values
    ensures FormatMap([Text(p0), Field("os"), Text(p1), Field("distribution"), Text(p2), Field("current_dir"),
                       Text(p3), Field("directory_list"), Text(p4)], values)
            == Success(p0 + values["os"] + p1 + values["distribution"] + p2 + values["current_dir"]
                       + p3 + values["directory_list"] + p4)
  {
    var v0, v1, v2, v3 := values["os"], values["distribution"], values["current_dir"], values["directory_list"];
    var t4: seq<Segment> := [Text(p4)];
    var t3 := [Text(p3), Field("directory_list")] + t4;
    var t2 := [Text(p2), Field("current_dir")] + t3;
    var t1 := [Text(p1), Field("distribution")] + t2;
    var t0 := [Text(p0), Field("os")] + t1;
    var s3 := p3 + v3 + p4;
    var s2 := p2 + v2 + s3;
    var s1 := p1 + v1 + s2;
    assert FormatMap(t4, values) == Success(p4) by {
      FormatMapCons(Text(p4), [], values);
      assert [Text(p4)] + [] == t4 && p4 + "" == p4;
    }
    assert FormatMap(t3, values) == Success(s3) by { TextFieldCons(p3, "directory_list", t4, values); }
    assert FormatMap(t2, values) == Success(s2) by { TextFieldCons(p2, "current_dir", t3, values); }
    assert FormatMap(t1, values) == Success(s1) by { TextFieldCons(p1, "distribution", t2, values); }
    assert FormatMap(t0, values) == Success(p0 + v0 + s1) by { TextFieldCons(p0, "os", t1, values); }
    assert t0 == [Text(p0), Field("os"), Text(p1), Field("distribution"), Text(p2), Field("current_dir"),
                  Text(p3), Field("directory_list"), Text(p4)];
    assert p0 + v0 + s1 == p0 + v0 + p1 + v1 + p2 + v2 + p3 + v3 + p4 by {
      assert s2 == p2 + v2 + p3 + v3 + p4;
      assert s1 == p1 + v1 + p2 + v2 + p3 + v3 + p4;
    }
  }

  /** A layout that opens with `a` and closes with `d` keeps them at its
      two ends, whatever lies between. */
  lemma LayoutFrame(a: string, b: string, v0: string, p1: string, v1: string, p2: string, v2: string,
                    p3: string, v3: string, c: string, d: string)
    ensures var s := (a + b) + v0 + p1 + v1 + p2 + v2 + p3 + v3 + (c + d);
            |a| <= |s| && s[..|a|] == a && |d| <= |s| && s[|s| - |d|..] == d
  {
    var s := (a + b) + v0 + p1 + v1 + p2 + v2 + p3 + v3 + (c + d);
    var middle := b + v0 + p1 + v1 + p2 + v2 + p3 + v3 + c;
    assert s == a + middle + d;
    assert (a + middle + d)[..|a|] == a;
    assert (a + middle + d)[|s| - |d|..] == d;
  }

  /** The prompt is the fixed text with the four resolved values in place:
      the `OS:`, `Distribution:` and `Current working directory:` lines
      each end with their value, and nothing else of the text changes. */
  lemma PromptLayout(operatingSystem: Option<string>, distribution: Option<string>,
                     currentDir: Option<string>, directoryList: Option<seq<string>>,
                     platform: Platform)
    ensures var a := ResolveArgs(operatingSystem, distribution, currentDir, directoryList, platform);
            ConstructSystemAssistantPrompt(operatingSystem, distribution, currentDir, directoryList, platform)
            == Intro + "OS: " + a.operatingSystem
               + "\nDistribution: " + a.distribution
               + "\nCurrent working directory: " + a.currentDir
               + "\nDirectory list: " + ReprList(a.directoryList)
               + "\n" + Rules
  {
    var a := ResolveArgs(operatingSystem, distribution, currentDir, directoryList, platform);
    FourFieldLayout(Intro + "OS: ", "\nDistribution: ", "\nCurrent working directory: ", "\nDirectory list: ",
                    "\n" + Rules, TemplateValues(a));
  }

  /** With every argument truthy the probes are never consulted: the
      prompt depends on the four arguments alone. */
  lemma PromptIgnoresPlatformWhenArgumentsGiven(operatingSystem: string, distribution: string, currentDir: string,
                                                directoryList: seq<string>, p1: Platform, p2: Platform)
    requires operatingSystem != "" && distribution != "" && directoryList != []
    ensures ConstructSystemAssistantPrompt(Some(operatingSystem), Some(distribution), Some(currentDir), Some(directoryList), p1)
         == ConstructSystemAssistantPrompt(Some(operatingSystem), Some(distribution), Some(currentDir), Some(directoryList), p2)
  {
  }
}
