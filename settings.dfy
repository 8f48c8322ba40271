/** `Config` and `Config.load_config` (video_processor.py:15-67): seven settings read from a YAML
    document, each falling back to a built-in default when its key is absent, and the whole default
    configuration when the file does not exist. */
module Settings {
  import opened Wrappers

  /** The shape of a top-level YAML value: a string, a mapping of strings to strings, or anything
      else (a number, a list, `null`, a mapping holding non-strings). */
  datatype Value = Text(text: string) | Table(fields: map<string, string>) | OtherValue

  /** What `yaml.safe_load` returned: a mapping, or something without `.get` (`None` for an empty
      file, a list, a scalar). */
  datatype Document = Mapping(entries: map<string, Value>) | NotAMapping

  /** The configuration file as `open` and `yaml.safe_load` see it. */
  datatype ConfigFile = NotFound | Unparsable | Loaded(doc: Document)

  /** Why loading raised. */
  datatype ConfigError =
    | ParseError           // YAML syntax error or unreadable file: not caught
    | NoMappingMethods     // `config_data.get` raised AttributeError: not caught
    | WrongType            // a setting of the wrong shape (see README)

  /** The `Config` dataclass. */
  datatype Config = Config(
    downloadsDir: string,
    mp3Dir: string,
    logsDir: string,
    outputDir: string,
    asrApi: map<string, string>,
    openaiApi: map<string, string>,
    deepseekApi: map<string, string>)

  /** The keys naming the four directory settings and the three API tables. */
  const DirectoryKeys: set<string> := {"downloads_dir", "mp3_dir", "logs_dir", "output_dir"}
  const TableKeys: set<string> := {"asr_api", "openai_api", "deepseek_api"}

  /** The built-in configuration (video_processor.py:51-67; the same values are the per-key
      defaults of lines 33-47). */
  function Defaults(): Config {
    Config("downloads", "mp3", "logs", "output",
           map["provider" := "whisper", "model" := "base", "language" := "zh"],
           map["api_key" := ""],
           map["api_key" := ""])
  }

  /** The directory setting a key names. */
  function DirectoryNamed(c: Config, key: string): string
    requires key in DirectoryKeys
  {
    match key
    case "downloads_dir" => c.downloadsDir
    case "mp3_dir" => c.mp3Dir
    case "logs_dir" => c.logsDir
    case _ => c.outputDir
  }

  /** The API table a key names. */
  function TableNamed(c: Config, key: string): map<string, string>
    requires key in TableKeys
  {
    match key
    case "asr_api" => c.asrApi
    case "openai_api" => c.openaiApi
    case _ => c.deepseekApi
  }

  /** Every setting the document gives has the shape its field needs. */
  predicate WellTyped(entries: map<string, Value>) {
    (forall key :: key in DirectoryKeys && key in entries ==> entries[key].Text?)
    && (forall key :: key in TableKeys && key in entries ==> entries[key].Table?)
  }

  /** `config_data.get(key, default)` for a directory setting of a well-typed document. */
  function TextOr(entries: map<string, Value>, key: string, default: string): string {
    if key in entries && entries[key].Text? then entries[key].text else default
  }

  /** `config_data.get(key, default)` for an API table of a well-typed document: a present table
      replaces the default whole. */
  function TableOr(entries: map<string, Value>, key: string, default: map<string, string>): map<string, string> {
    if key in entries && entries[key].Table? then entries[key].fields else default
  }

  /** `Config.load_config`: a missing file gives the defaults; a document that is a mapping gives
      each setting from its key or its default; anything else raises. */
  function LoadConfig(file: ConfigFile): (r: Result<Config, ConfigError>)
    ensures r.Success? <==> file.NotFound? || (file.Loaded? && file.doc.Mapping? && WellTyped(file.doc.entries))
    ensures file.NotFound? ==> r == Success(Defaults())
    ensures file.Unparsable? ==> r == Failure(ParseError)
  {
    match file
    case NotFound => Success(Defaults())
    case Unparsable => Failure(ParseError)
    case Loaded(NotAMapping) => Failure(NoMappingMethods)
    case Loaded(Mapping(e)) =>
      if !WellTyped(e) then Failure(WrongType)
      else
        var d := Defaults();
        Success(Config(
          TextOr(e, "downloads_dir", d.downloadsDir),
          TextOr(e, "mp3_dir", d.mp3Dir),
          TextOr(e, "logs_dir", d.logsDir),
          TextOr(e, "output_dir", d.outputDir),
          TableOr(e, "asr_api", d.asrApi),
          TableOr(e, "openai_api", d.openaiApi),
          TableOr(e, "deepseek_api", d.deepseekApi)))
  }

  /** Each directory setting of a loaded configuration is the document's string under its key, or
      the default when the key is absent. */
  lemma LoadedDirectoryIsEntryOrDefault(entries: map<string, Value>, key: string)
    requires key in DirectoryKeys
    ensures var r := LoadConfig(Loaded(Mapping(entries)));
            r.Success? ==> DirectoryNamed(r.value, key)
                           == if key in entries then entries[key].text else DirectoryNamed(Defaults(), key)
  {
  }

  /** Each API table of a loaded configuration is the document's table under its key, replacing the
      default table whole (no per-key merge), or the default table when the key is absent. */
  lemma LoadedTableIsEntryOrDefault(entries: map<string, Value>, key: string)
    requires key in TableKeys
    ensures var r := LoadConfig(Loaded(Mapping(entries)));
            r.Success? ==> TableNamed(r.value, key)
                           == if key in entries then entries[key].fields else TableNamed(Defaults(), key)
  {
  }

  /** An empty mapping and a missing file load the same configuration; an empty file (which YAML
      reads as `null`) raises instead. */
  lemma EmptyMappingIsMissingFile()
    ensures LoadConfig(Loaded(Mapping(map[]))) == LoadConfig(NotFound)
    ensures LoadConfig(Loaded(NotAMapping)).Failure?
  {
  }

  /** A partial `asr_api` table is not merged with the default: the provider key it omits is gone. */
  lemma PartialAsrTableDropsProvider(entries: map<string, Value>)
    requires "asr_api" in entries && entries["asr_api"].Table? && "provider" !in entries["asr_api"].fields
    ensures var r := LoadConfig(Loaded(Mapping(entries)));
            r.Success? ==> "provider" !in r.value.asrApi
  {
  }

  /** `_setup_text_processor` (video_processor.py:112-123): a refiner exists when the DeepSeek table
      has a non-empty `api_key` and constructing the client does not raise; a missing key raises
      `KeyError`, which is caught like a constructor fault. */
  function RefinerConfigured(c: Config, clientOk: bool): (on: bool)
    ensures on ==> "api_key" in c.deepseekApi && c.deepseekApi["api_key"] != ""
  {
    "api_key" in c.deepseekApi && c.deepseekApi["api_key"] != "" && clientOk
  }

  /** Under the default configuration refinement is off. */
  lemma DefaultsDisableRefiner(clientOk: bool)
    ensures !RefinerConfigured(Defaults(), clientOk)
  {
  }
}
