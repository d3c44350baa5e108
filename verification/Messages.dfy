/** The popup's messages as tasks, and why what they store is read back unchanged. */
module Messages {
  import opened Wrappers
  import opened Text
  import opened Browser
  import opened Json
  import Base64
  import opened ConnectionKey
  import Routing
  import Tasks
  import Worker

  datatype Message = ImportKey(key: string) | Connect | Disconnect | Forget | SaveExclusions(text: string)

  function Accepted<T>(r: Result<T>): Option<T> {
    if r.Ok? then Some(r.value) else None
  }

  function TaskOf(m: Message): (t: Tasks.Task)
    ensures Worker.UserTask(t)
  {
    match m
    case ImportKey(key) => Tasks.ImportKey(Accepted(ParseConnectionKey(key)))
    case Connect => Tasks.Connect
    case Disconnect => Tasks.Disconnect
    case Forget => Tasks.Forget
    case SaveExclusions(text) => Tasks.SaveExclusions(Accepted(Routing.Normalized(text)))
  }

  /** The object validateConnection returns. */
  function JsonOf(c: Connection): Json {
    Object(map["v" := Number(1.0), "host" := Str(c.host), "port" := Number(c.port as real),
               "username" := Str(c.username), "password" := Str(c.password)])
  }

  predicate IsValid(c: Connection) {
    Routing.IsValidHost(c.host) && Lower(c.host) == c.host && 1 <= c.port <= 65535 &&
    IsUsername(c.username) && IsPassword(c.password)
  }

  lemma ValidatedIsValid(j: Json)
    requires ValidateConnection(j).Ok?
    ensures IsValid(ValidateConnection(j).value)
  {
    var host := j.fields["host"].s;
    Routing.LowerHostIsValid(host);
    LowerTwice(host);
    hide Routing.IsValidHost, Lower;
  }

  lemma ValidReadsBack(c: Connection)
    requires IsValid(c)
    ensures ValidateConnection(JsonOf(c)) == Ok(c)
  {
    hide Routing.IsValidHost, Lower;
    assert (c.port as real).Floor == c.port;
  }

  /** A connection that IMPORT_KEY stores is later read as that connection. */
  lemma StoredConnectionReadsBack(raw: string)
    requires ParseConnectionKey(raw).Ok?
    ensures ValidateConnection(JsonOf(ParseConnectionKey(raw).value)) == Ok(ParseConnectionKey(raw).value)
  {
    hide ValidateConnection;
    ParsedIsValidated(raw);
    var j :| ValidateConnection(j) == ParseConnectionKey(raw);
    ValidatedIsValid(j);
    ValidReadsBack(ParseConnectionKey(raw).value);
  }

  lemma ParsedIsValidated(raw: string)
    requires ParseConnectionKey(raw).Ok?
    ensures exists j :: ValidateConnection(j) == ParseConnectionKey(raw)
  {
    hide ValidateConnection, Parse, Trim;
    var bytes := Base64.UrlDecoded(Trim(raw)[|KEY_PREFIX|..]).value;
    var j := Parse(AsciiText(bytes).value).value;
    assert ValidateConnection(j) == ParseConnectionKey(raw);
  }

  /** Exclusions that SAVE_EXCLUSIONS stores are later read as the same list. */
  lemma StoredExclusionsReadBack(text: string)
    requires Routing.Normalized(text).Ok?
    ensures Routing.Normalized(Join(Routing.Normalized(text).value, "\n")) == Routing.Normalized(text)
  {
    Routing.NormalizedIsNormal(text);
    hide Routing.Normal, Routing.Normalized;
    Routing.NormalizingTwice(Routing.Normalized(text).value);
  }

  /** buildProxyConfig, which validates and normalises once more. */
  function BuildPac(connection: Json, exclusions: seq<string>): Result<Pac> {
    match ValidateConnection(connection)
    case Err => Err
    case Ok(safe) =>
      match Routing.Normalized(Join(exclusions, "\n"))
      case Err => Err
      case Ok(normalized) => Ok(Pac(safe.host, safe.port, normalized))
  }

  /** On what configuredConnection and configuredExclusions return it does not throw and
      generates the script of exactly that configuration. */
  lemma BuildsTheConfiguration(connection: Json, text: string)
    requires ValidateConnection(connection).Ok? && Routing.Normalized(text).Ok?
    ensures var c, xs := ValidateConnection(connection).value, Routing.Normalized(text).value;
      BuildPac(JsonOf(c), xs) == Ok(BuildProxyConfig(Config(c, xs)))
  {
    hide ValidateConnection, Routing.Normalized;
    ValidatedIsValid(connection);
    ValidReadsBack(ValidateConnection(connection).value);
    StoredExclusionsReadBack(text);
  }
}
