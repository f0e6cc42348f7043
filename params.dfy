/** Parameter resolution: reading `tags`, `lyrics` and `duration` out of a job,
    applying their defaults and building the generation prompt. */
module JobParams {
  import opened PyValues

  /** The value stored under the job's "input" key. */
  datatype Input =
    | Mapping(fields: map<string, Arg>)  // a dict: `.get` works on it
    | NonMapping(value: Arg)             // anything else: it has no `.get`
                                         // (so never an `Object` named `dict`)

  /** A job delivered by the dispatch runtime, seen through its "input" key,
      which may be absent. */
  datatype Job = Job(input: Option<Input>)

  /** What the handler passes on to generation. */
  datatype Request = Request(prompt: Arg, duration: Arg)

  const DefaultDuration: int := 30
  const Separator: string := "\n\n"

  /** `d.get(key, default)`: a present value is returned unchanged, even a falsy one. */
  function Get(fields: map<string, Arg>, key: string, default: Arg): Arg {
    if key in fields then fields[key] else default
  }

  /** The prompt: the tags, a blank line and the lyrics when the tags are truthy;
      otherwise the lyrics value itself, untouched. */
  function BuildPrompt(tags: Arg, lyrics: Arg): (prompt: Arg)
    ensures !tags.Truthy() ==> prompt == lyrics
    ensures tags.Truthy() ==>
      var t, l := tags.Text(), lyrics.Text();
      prompt.Str? && |prompt.s| == |t| + |Separator| + |l| &&
      prompt.s[..|t|] == t &&
      prompt.s[|t|..|t| + |Separator|] == Separator &&
      prompt.s[|t| + |Separator|..] == l
  {
    if tags.Truthy() then Str(tags.Text() + Separator + lyrics.Text()) else lyrics
  }

  /** The string case: the prompt is the lyrics verbatim exactly when the tags are
      empty, so two empty fields give the empty prompt; non-empty tags are always
      followed by the separator. */
  lemma PromptOfStrings(tags: string, lyrics: string)
    ensures BuildPrompt(Str(tags), Str(lyrics)) == Str(lyrics) <==> tags == ""
    ensures tags != "" ==> BuildPrompt(Str(tags), Str(lyrics)) == Str(tags + "\n\n" + lyrics)
    ensures tags == "" && lyrics == "" ==> BuildPrompt(Str(tags), Str(lyrics)) == Str("")
  {
  }

  /** Resolve a job's parameters. A missing "input" counts as an empty mapping;
      an "input" that is not a mapping makes `.get` raise AttributeError. */
  function ResolveParams(job: Job): (r: Outcome<Request>)
    ensures r.Raise? <==> job.input.Some? && job.input.value.NonMapping?
    ensures r.Raise? ==> r.error.cls == AttributeError
    ensures r.Ok? && job.input.Some? && "duration" in job.input.value.fields ==>
      r.value.duration == job.input.value.fields["duration"]
    ensures r.Ok? && (job.input.None? || "duration" !in job.input.value.fields) ==>
      r.value.duration == Int(DefaultDuration)
  {
    var input := if job.input.Some? then job.input.value else Mapping(map[]);
    match input
    case NonMapping(v) =>
      Raise(Exception(AttributeError, "'" + v.TypeName() + "' object has no attribute 'get'"))
    case Mapping(fields) =>
      var tags := Get(fields, "tags", Str(""));
      var lyrics := Get(fields, "lyrics", Str(""));
      var duration := Get(fields, "duration", Int(DefaultDuration));
      Ok(Request(BuildPrompt(tags, lyrics), duration))
  }

  /** A job without "input" resolves like one with an empty mapping: empty prompt,
      30 seconds. */
  lemma MissingInputIsEmptyMapping(job: Job)
    requires job.input.None?
    ensures ResolveParams(job) == ResolveParams(Job(Some(Mapping(map[]))))
    ensures ResolveParams(job) == Ok(Request(Str(""), Int(30)))
  {
  }

  /** Missing fields take their defaults and present ones are used unchanged. */
  lemma FieldDefaults(fields: map<string, Arg>)
    ensures var r := ResolveParams(Job(Some(Mapping(fields))));
      r.Ok? &&
      ("tags" !in fields ==> r.value.prompt == Get(fields, "lyrics", Str(""))) &&
      ("tags" in fields && "lyrics" in fields ==>
         r.value.prompt == BuildPrompt(fields["tags"], fields["lyrics"])) &&
      ("tags" in fields && "lyrics" !in fields ==>
         r.value.prompt == BuildPrompt(fields["tags"], Str("")))
  {
  }

  /** The example job "warm, acoustic" / "[verse]\nhello" / 30. */
  lemma WarmAcousticJob()
    ensures ResolveParams(Job(Some(Mapping(map[
              "tags" := Str("warm, acoustic"),
              "lyrics" := Str("[verse]\nhello"),
              "duration" := Int(30)]))))
            == Ok(Request(Str("warm, acoustic\n\n[verse]\nhello"), Int(30)))
  {
    assert "warm, acoustic" + Separator + "[verse]\nhello" == "warm, acoustic\n\n[verse]\nhello";
  }
}
