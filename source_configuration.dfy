/**
 * What the `PixxioAssetSource` constructor makes of its identifier and
 * options, and how `getPixxioClient` picks the refresh token to
 * authenticate with.
 *
 * The options are a PHP array: an ordered sequence of (name, value) entries,
 * read in order by a `foreach`, so the first rejected option decides the
 * exception.
 */
module SourceConfiguration {
  import opened Wrappers
  import opened PhpStrings
  import opened PhpValues
  import opened PixxioApi
  import opened Externals

  /** The `InvalidArgumentException`s (and the `Uri` failure) of the constructor. */
  datatype ConfigError =
    | InvalidIdentifier(identifier: string)
    | InvalidEndpoint
    | InvalidApiKey
    | InvalidApiClientOptions
    | InvalidSharedRefreshToken
    | InvalidMediaTypes
    | UnknownMediaType(mediaType: string)
    | InvalidAutoTagging
    | UnknownAutoTaggingOption(name: string)
    | UnknownOption(name: string)
  {
    /** The exception code; 0 for an endpoint that `Uri` refuses, which is not the package's own exception. */
    function Code(): int {
      match this
      case InvalidIdentifier(_) => 1525790890
      case InvalidEndpoint => 0
      case InvalidApiKey => 1525792639
      case InvalidApiClientOptions => 1591605348
      case InvalidSharedRefreshToken => 1528806843
      case InvalidMediaTypes => 1542809628
      case UnknownMediaType(_) => 1542809775
      case InvalidAutoTagging => 1587561121
      case UnknownAutoTaggingOption(_) => 1587561244
      case UnknownOption(_) => 1525790910
    }
  }

  /** The fields the constructor fills in. */
  datatype Settings = Settings(
    assetSourceIdentifier: string,
    assetSourceOptions: seq<(string, Value)>,
    apiEndpointUri: Option<string>,
    apiKey: Option<string>,
    apiClientOptions: seq<(string, Value)>,
    sharedRefreshToken: Option<string>,
    autoTaggingEnable: bool,
    autoTaggingInUseTag: string,
    iconPath: Option<Value>,
    description: Value)

  const DefaultInUseTag := "used-by-neos"

  /** The option names the constructor knows. */
  const KnownOptions: set<string> :=
    {"apiEndpointUri", "apiKey", "apiClientOptions", "sharedRefreshToken", "mediaTypes", "autoTagging", "icon", "description"}

  /** The fields before the options are read. */
  function Defaults(identifier: string, options: seq<(string, Value)>): Settings {
    Settings(identifier, options, None, None, [], None, false, DefaultInUseTag, None, Str(""))
  }

  // ---------------------------------------------------------------------
  // The identifier

  predicate IsLowerLetter(c: char) {
    'a' <= c <= 'z'
  }

  /** `[a-z][a-z0-9-]{0,62}[a-z]`, the whole string. */
  predicate IsIdentifierBody(s: string) {
    2 <= |s| <= 64 && IsLowerLetter(s[0]) && IsLowerLetter(s[|s| - 1]) &&
    forall i :: 0 < i < |s| - 1 ==> IsLowerLetter(s[i]) || IsDigit(s[i]) || s[i] == '-'
  }

  /** `preg_match('/^[a-z][a-z0-9-]{0,62}[a-z]$/', $id) === 1`; `$` also matches before a final newline. */
  predicate IdentifierMatches(id: string) {
    IsIdentifierBody(id) || (|id| > 0 && id[|id| - 1] == '\n' && IsIdentifierBody(id[..|id| - 1]))
  }

  /**
   * An accepted identifier is 2 to 64 lower-case letters, digits and dashes
   * that starts and ends with a letter, possibly followed by one newline.
   */
  lemma AcceptedIdentifierShape(id: string)
    requires IdentifierMatches(id)
    ensures var body := if id[|id| - 1] == '\n' then id[..|id| - 1] else id;
            2 <= |body| <= 64 && IsLowerLetter(body[0]) && IsLowerLetter(body[|body| - 1]) &&
            forall i :: 0 <= i < |body| ==> IsLowerLetter(body[i]) || IsDigit(body[i]) || body[i] == '-'
  {
  }

  /** A single trailing newline slips through the check. */
  lemma TrailingNewlineAccepted()
    ensures IdentifierMatches("pixxio\n") && !IsIdentifierBody("pixxio\n")
  {
    assert "pixxio\n"[..|"pixxio\n"| - 1] == "pixxio";
  }

  // ---------------------------------------------------------------------
  // The in-use tag

  /** The characters `/[^A-Za-z0-9&_+ßäöüÄÖÜ.@ -]+/u` does not remove. */
  predicate IsAllowedTagChar(c: char) {
    ('A' <= c <= 'Z') || ('a' <= c <= 'z') || ('0' <= c <= '9') ||
    c in {'&', '_', '+', 'ß', 'ä', 'ö', 'ü', 'Ä', 'Ö', 'Ü', '.', '@', ' ', '-'}
  }

  /** The tag with every disallowed character removed, the others kept in order. */
  function SanitizeTag(s: string): (r: string)
    ensures forall i :: 0 <= i < |r| ==> IsAllowedTagChar(r[i])
    ensures forall c :: c in r <==> c in s && IsAllowedTagChar(c)
    ensures |r| <= |s|
    decreases |s|
  {
    if |s| == 0 then ""
    else
      assert s == [s[0]] + s[1..];
      if IsAllowedTagChar(s[0]) then [s[0]] + SanitizeTag(s[1..]) else SanitizeTag(s[1..])
  }

  /**
   * Sanitising two texts one after the other is sanitising the joined text,
   * and a single character is kept exactly when it is allowed: so the kept
   * characters stay in their order and multiplicity.
   */
  lemma {:induction false} SanitizeTagFilters(a: string, b: string)
    ensures SanitizeTag(a + b) == SanitizeTag(a) + SanitizeTag(b)
    ensures forall c :: SanitizeTag([c]) == if IsAllowedTagChar(c) then [c] else []
    decreases |a|
  {
    forall c ensures SanitizeTag([c]) == if IsAllowedTagChar(c) then [c] else [] {
      assert [c][1..] == [];
    }
    if |a| > 0 {
      assert (a + b)[0] == a[0] && (a + b)[1..] == a[1..] + b;
      SanitizeTagFilters(a[1..], b);
    } else {
      assert a + b == b;
    }
  }

  /** A tag made of allowed characters only is kept as is, so sanitising twice changes nothing. */
  lemma {:induction false} SanitizeKeepsAllowed(s: string)
    requires forall i :: 0 <= i < |s| ==> IsAllowedTagChar(s[i])
    ensures SanitizeTag(s) == s
    decreases |s|
  {
    if |s| > 0 {
      SanitizeKeepsAllowed(s[1..]);
      assert s == [s[0]] + s[1..];
    }
  }

  // ---------------------------------------------------------------------
  // The options

  /** The text `new Uri()` receives: scalars are converted, null and arrays are type errors. */
  function EndpointText(value: Value): Option<string> {
    match value
    case Null => None
    case Arr(_) => None
    case _ => Some(ToText(value))
  }

  /** The first media type (in order) for which no filename extension is known. */
  function FirstUnknownMediaType(types: seq<(string, Value)>, lib: Library): (r: Option<string>)
    ensures r.None? <==> forall i :: 0 <= i < |types| ==> lib.extensionsFromMediaType(types[i].0) != []
    decreases |types|
  {
    if |types| == 0 then None
    else if lib.extensionsFromMediaType(types[0].0) == [] then Some(types[0].0)
    else
      var r := FirstUnknownMediaType(types[1..], lib);
      assert forall i :: 1 <= i < |types| ==> types[i] == types[1..][i - 1];
      r
  }

  /** One `autoTagging` entry. */
  function ApplyAutoTaggingOption(s: Settings, name: string, value: Value): Result<Settings, ConfigError> {
    if name == "enable" then Ok(s.(autoTaggingEnable := ToBool(value)))
    else if name == "inUseTag" then Ok(s.(autoTaggingInUseTag := SanitizeTag(ToText(value))))
    else Err(UnknownAutoTaggingOption(name))
  }

  /** The `autoTagging` entries, in order. */
  function ApplyAutoTagging(s: Settings, entries: seq<(string, Value)>): Result<Settings, ConfigError>
    decreases |entries|
  {
    if |entries| == 0 then Ok(s)
    else
      match ApplyAutoTaggingOption(s, entries[0].0, entries[0].1)
      case Err(e) => Err(e)
      case Ok(s1) => ApplyAutoTagging(s1, entries[1..])
  }

  /** One top-level option: the case of the constructor's `switch`. */
  function ApplyOption(s: Settings, name: string, value: Value, lib: Library): Result<Settings, ConfigError> {
    if name == "apiEndpointUri" then
      match EndpointText(value)
      case None => Err(InvalidEndpoint)
      case Some(text) =>
        match lib.normalizeUri(text)
        case None => Err(InvalidEndpoint)
        case Some(uri) => Ok(s.(apiEndpointUri := Some(uri)))
    else if name == "apiKey" then
      if value.Str? && !IsEmptyString(value.s) then Ok(s.(apiKey := Some(value.s))) else Err(InvalidApiKey)
    else if name == "apiClientOptions" then
      if value.Arr? then Ok(s.(apiClientOptions := value.entries)) else Err(InvalidApiClientOptions)
    else if name == "sharedRefreshToken" then
      if value.Str? && !IsEmptyString(value.s) then Ok(s.(sharedRefreshToken := Some(value.s)))
      else Err(InvalidSharedRefreshToken)
    else if name == "mediaTypes" then
      if !value.Arr? then Err(InvalidMediaTypes)
      else if FirstUnknownMediaType(value.entries, lib).Some? then
        Err(UnknownMediaType(FirstUnknownMediaType(value.entries, lib).value))
      else Ok(s)
    else if name == "autoTagging" then
      if value.Arr? then ApplyAutoTagging(s, value.entries) else Err(InvalidAutoTagging)
    else if name == "icon" then Ok(s.(iconPath := Some(value)))
    else if name == "description" then Ok(s.(description := value))
    else Err(UnknownOption(name))
  }

  /** The options, in order; the first rejected one stops the constructor. */
  function ApplyOptions(s: Settings, options: seq<(string, Value)>, lib: Library): Result<Settings, ConfigError>
    decreases |options|
  {
    if |options| == 0 then Ok(s)
    else
      match ApplyOption(s, options[0].0, options[0].1, lib)
      case Err(e) => Err(e)
      case Ok(s1) => ApplyOptions(s1, options[1..], lib)
  }

  /** The constructor: the identifier check, then the options. */
  function Configure(identifier: string, options: seq<(string, Value)>, lib: Library): Result<Settings, ConfigError> {
    if !IdentifierMatches(identifier) then Err(InvalidIdentifier(identifier))
    else ApplyOptions(Defaults(identifier, options), options, lib)
  }

  // ---------------------------------------------------------------------
  // The constructor's loops

  /** The `mediaTypes` loop. */
  method CheckMediaTypes(types: seq<(string, Value)>, lib: Library) returns (unknown: Option<string>)
    ensures unknown == FirstUnknownMediaType(types, lib)
  {
    var j := 0;
    while j < |types|
      invariant 0 <= j <= |types|
      invariant FirstUnknownMediaType(types, lib) == FirstUnknownMediaType(types[j..], lib)
    {
      if lib.extensionsFromMediaType(types[j].0) == [] {
        return Some(types[j].0);
      }
      assert types[j..][1..] == types[j + 1..];
      j := j + 1;
    }
    return None;
  }

  /** The `autoTagging` loop. */
  method ConfigureAutoTagging(s0: Settings, entries: seq<(string, Value)>) returns (r: Result<Settings, ConfigError>)
    ensures r == ApplyAutoTagging(s0, entries)
  {
    var s := s0;
    var j := 0;
    while j < |entries|
      invariant 0 <= j <= |entries|
      invariant ApplyAutoTagging(s0, entries) == ApplyAutoTagging(s, entries[j..])
    {
      var (name, value) := entries[j];
      assert entries[j..][1..] == entries[j + 1..];
      if name == "enable" {
        s := s.(autoTaggingEnable := ToBool(value));
      } else if name == "inUseTag" {
        s := s.(autoTaggingInUseTag := SanitizeTag(ToText(value)));
      } else {
        return Err(UnknownAutoTaggingOption(name));
      }
      j := j + 1;
    }
    return Ok(s);
  }

  /** The constructor's `foreach` over the options. */
  method ValidateOptions(identifier: string, options: seq<(string, Value)>, lib: Library)
    returns (r: Result<Settings, ConfigError>)
    ensures r == Configure(identifier, options, lib)
  {
    if !IdentifierMatches(identifier) {
      return Err(InvalidIdentifier(identifier));
    }
    var s := Defaults(identifier, options);
    var i := 0;
    while i < |options|
      invariant 0 <= i <= |options|
      invariant Configure(identifier, options, lib) == ApplyOptions(s, options[i..], lib)
    {
      var (name, value) := options[i];
      assert options[i..][1..] == options[i + 1..];
      var step: Result<Settings, ConfigError>;
      if name == "mediaTypes" && value.Arr? {
        var unknown := CheckMediaTypes(value.entries, lib);
        step := if unknown.Some? then Err(UnknownMediaType(unknown.value)) else Ok(s);
      } else if name == "autoTagging" && value.Arr? {
        step := ConfigureAutoTagging(s, value.entries);
      } else {
        step := ApplyOption(s, name, value, lib);
      }
      if step.Err? {
        return Err(step.error);
      }
      s := step.value;
      i := i + 1;
    }
    return Ok(s);
  }

  // ---------------------------------------------------------------------
  // Properties of the configuration

  /** Whether an option passes its check, whatever came before it. */
  predicate OptionAccepted(name: string, value: Value, lib: Library) {
    ApplyOption(Defaults("", []), name, value, lib).Ok?
  }

  /** An option's check does not depend on the fields set before it. */
  lemma {:induction false} AutoTaggingAcceptanceIndependent(s: Settings, t: Settings, entries: seq<(string, Value)>)
    ensures ApplyAutoTagging(s, entries).Ok? <==> ApplyAutoTagging(t, entries).Ok?
    decreases |entries|
  {
    if |entries| > 0 {
      var (name, value) := entries[0];
      if name == "enable" || name == "inUseTag" {
        AutoTaggingAcceptanceIndependent(
          ApplyAutoTaggingOption(s, name, value).value, ApplyAutoTaggingOption(t, name, value).value, entries[1..]);
      }
    }
  }

  lemma OptionAcceptanceIndependent(s: Settings, name: string, value: Value, lib: Library)
    ensures ApplyOption(s, name, value, lib).Ok? <==> OptionAccepted(name, value, lib)
  {
    if name == "autoTagging" && value.Arr? {
      AutoTaggingAcceptanceIndependent(s, Defaults("", []), value.entries);
    }
  }

  lemma {:induction false} ApplyOptionsOkIff(s: Settings, options: seq<(string, Value)>, lib: Library)
    ensures ApplyOptions(s, options, lib).Ok? <==>
            forall i :: 0 <= i < |options| ==> OptionAccepted(options[i].0, options[i].1, lib)
    decreases |options|
  {
    if |options| > 0 {
      OptionAcceptanceIndependent(s, options[0].0, options[0].1, lib);
      var step := ApplyOption(s, options[0].0, options[0].1, lib);
      if step.Ok? {
        ApplyOptionsOkIff(step.value, options[1..], lib);
        assert forall i :: 1 <= i < |options| ==> options[i] == options[1..][i - 1];
      }
    }
  }

  /** Construction succeeds exactly when the identifier matches and every option passes its own check. */
  lemma ConfigureSucceedsIff(identifier: string, options: seq<(string, Value)>, lib: Library)
    ensures Configure(identifier, options, lib).Ok? <==>
            IdentifierMatches(identifier) &&
            forall i :: 0 <= i < |options| ==> OptionAccepted(options[i].0, options[i].1, lib)
  {
    if IdentifierMatches(identifier) {
      ApplyOptionsOkIff(Defaults(identifier, options), options, lib);
    }
  }

  /**
   * The checks of the single options: non-empty strings for the API key and
   * the shared token, arrays for client options, media types (each with a
   * known extension) and auto-tagging (with only `enable` and `inUseTag`),
   * anything for `icon` and `description`, and no other name.
   */
  lemma OptionChecks(name: string, value: Value, lib: Library)
    ensures name == "apiKey" || name == "sharedRefreshToken" ==>
            (OptionAccepted(name, value, lib) <==> value.Str? && value.s != "" && value.s != "0")
    ensures name == "apiClientOptions" ==> (OptionAccepted(name, value, lib) <==> value.Arr?)
    ensures name == "mediaTypes" ==>
            (OptionAccepted(name, value, lib) <==>
               value.Arr? && forall i :: 0 <= i < |value.entries| ==> lib.extensionsFromMediaType(value.entries[i].0) != [])
    ensures name == "autoTagging" ==>
            (OptionAccepted(name, value, lib) <==>
               value.Arr? && forall i :: 0 <= i < |value.entries| ==> value.entries[i].0 in {"enable", "inUseTag"})
    ensures name == "icon" || name == "description" ==> OptionAccepted(name, value, lib)
    ensures name !in KnownOptions ==> !OptionAccepted(name, value, lib)
  {
    if name == "autoTagging" && value.Arr? {
      AutoTaggingOkIff(Defaults("", []), value.entries);
    }
  }

  lemma {:induction false} AutoTaggingOkIff(s: Settings, entries: seq<(string, Value)>)
    ensures ApplyAutoTagging(s, entries).Ok? <==> forall i :: 0 <= i < |entries| ==> entries[i].0 in {"enable", "inUseTag"}
    decreases |entries|
  {
    if |entries| > 0 {
      var step := ApplyAutoTaggingOption(s, entries[0].0, entries[0].1);
      if step.Ok? {
        AutoTaggingOkIff(step.value, entries[1..]);
        assert forall i :: 1 <= i < |entries| ==> entries[i] == entries[1..][i - 1];
      }
    }
  }

  predicate TagIsClean(s: Settings) {
    forall i :: 0 <= i < |s.autoTaggingInUseTag| ==> IsAllowedTagChar(s.autoTaggingInUseTag[i])
  }

  lemma {:induction false} AutoTaggingKeepsTagClean(s: Settings, entries: seq<(string, Value)>)
    requires TagIsClean(s) && ApplyAutoTagging(s, entries).Ok?
    ensures TagIsClean(ApplyAutoTagging(s, entries).value)
    ensures ApplyAutoTagging(s, entries).value.(autoTaggingEnable := s.autoTaggingEnable, autoTaggingInUseTag := s.autoTaggingInUseTag) == s
    decreases |entries|
  {
    if |entries| > 0 {
      AutoTaggingKeepsTagClean(ApplyAutoTaggingOption(s, entries[0].0, entries[0].1).value, entries[1..]);
    }
  }

  lemma {:induction false} OptionsKeepTagClean(s: Settings, options: seq<(string, Value)>, lib: Library)
    requires TagIsClean(s) && ApplyOptions(s, options, lib).Ok?
    ensures TagIsClean(ApplyOptions(s, options, lib).value)
    decreases |options|
  {
    if |options| > 0 {
      var (name, value) := options[0];
      if name == "autoTagging" {
        AutoTaggingKeepsTagClean(s, value.entries);
      }
      OptionsKeepTagClean(ApplyOption(s, name, value, lib).value, options[1..], lib);
    }
  }

  /** After construction the in-use tag consists of allowed characters only. */
  lemma InUseTagIsClean(identifier: string, options: seq<(string, Value)>, lib: Library)
    requires Configure(identifier, options, lib).Ok?
    ensures TagIsClean(Configure(identifier, options, lib).value)
  {
    var d := Defaults(identifier, options);
    assert TagIsClean(d) by {
      assert d.autoTaggingInUseTag == "used-by-neos";
    }
    OptionsKeepTagClean(d, options, lib);
  }

  lemma {:induction false} OptionsWithoutAutoTaggingKeepIt(s: Settings, options: seq<(string, Value)>, lib: Library)
    requires forall i :: 0 <= i < |options| ==> options[i].0 != "autoTagging"
    requires ApplyOptions(s, options, lib).Ok?
    ensures ApplyOptions(s, options, lib).value.autoTaggingEnable == s.autoTaggingEnable
    ensures ApplyOptions(s, options, lib).value.autoTaggingInUseTag == s.autoTaggingInUseTag
    ensures ApplyOptions(s, options, lib).value.assetSourceIdentifier == s.assetSourceIdentifier
    ensures ApplyOptions(s, options, lib).value.assetSourceOptions == s.assetSourceOptions
    decreases |options|
  {
    if |options| > 0 {
      assert options[0].0 != "autoTagging";
      assert forall i :: 1 <= i < |options| ==> options[i] == options[1..][i - 1];
      OptionsWithoutAutoTaggingKeepIt(ApplyOption(s, options[0].0, options[0].1, lib).value, options[1..], lib);
    }
  }

  /** Without an `autoTagging` option, auto-tagging is off and the tag is "used-by-neos". */
  lemma AutoTaggingDefaults(identifier: string, options: seq<(string, Value)>, lib: Library)
    requires forall i :: 0 <= i < |options| ==> options[i].0 != "autoTagging"
    requires Configure(identifier, options, lib).Ok?
    ensures !Configure(identifier, options, lib).value.autoTaggingEnable
    ensures Configure(identifier, options, lib).value.autoTaggingInUseTag == "used-by-neos"
    ensures Configure(identifier, options, lib).value.assetSourceIdentifier == identifier
    ensures Configure(identifier, options, lib).value.assetSourceOptions == options
  {
    OptionsWithoutAutoTaggingKeepIt(Defaults(identifier, options), options, lib);
  }

  predicate KeyAndTokenUsable(s: Settings) {
    (s.apiKey.Some? ==> !IsEmptyString(s.apiKey.value)) &&
    (s.sharedRefreshToken.Some? ==> !IsEmptyString(s.sharedRefreshToken.value))
  }

  lemma {:induction false} OptionsKeepKeyAndTokenUsable(s: Settings, options: seq<(string, Value)>, lib: Library)
    requires KeyAndTokenUsable(s) && ApplyOptions(s, options, lib).Ok?
    ensures KeyAndTokenUsable(ApplyOptions(s, options, lib).value)
    decreases |options|
  {
    if |options| > 0 {
      var (name, value) := options[0];
      if name == "autoTagging" {
        AutoTaggingKeepsRest(s, value.entries);
      }
      OptionsKeepKeyAndTokenUsable(ApplyOption(s, name, value, lib).value, options[1..], lib);
    }
  }

  lemma {:induction false} AutoTaggingKeepsRest(s: Settings, entries: seq<(string, Value)>)
    requires ApplyAutoTagging(s, entries).Ok?
    ensures ApplyAutoTagging(s, entries).value.apiKey == s.apiKey
    ensures ApplyAutoTagging(s, entries).value.sharedRefreshToken == s.sharedRefreshToken
    ensures ApplyAutoTagging(s, entries).value.assetSourceIdentifier == s.assetSourceIdentifier
    ensures ApplyAutoTagging(s, entries).value.assetSourceOptions == s.assetSourceOptions
    decreases |entries|
  {
    if |entries| > 0 {
      AutoTaggingKeepsRest(ApplyAutoTaggingOption(s, entries[0].0, entries[0].1).value, entries[1..]);
    }
  }

  lemma {:induction false} OptionsKeepIdentity(s: Settings, options: seq<(string, Value)>, lib: Library)
    requires ApplyOptions(s, options, lib).Ok?
    ensures ApplyOptions(s, options, lib).value.assetSourceIdentifier == s.assetSourceIdentifier
    ensures ApplyOptions(s, options, lib).value.assetSourceOptions == s.assetSourceOptions
    decreases |options|
  {
    if |options| > 0 {
      var (name, value) := options[0];
      if name == "autoTagging" {
        AutoTaggingKeepsRest(s, value.entries);
      }
      OptionsKeepIdentity(ApplyOption(s, name, value, lib).value, options[1..], lib);
    }
  }

  /**
   * A configured source carries the identifier it was created with, which
   * passed the check, and the options as given.
   */
  lemma ConfiguredIdentity(identifier: string, options: seq<(string, Value)>, lib: Library)
    requires Configure(identifier, options, lib).Ok?
    ensures IdentifierMatches(identifier)
    ensures Configure(identifier, options, lib).value.assetSourceIdentifier == identifier
    ensures Configure(identifier, options, lib).value.assetSourceOptions == options
  {
    OptionsKeepIdentity(Defaults(identifier, options), options, lib);
  }

  /** A configured API key or shared refresh token is never "" or "0". */
  lemma ConfiguredKeyAndTokenUsable(identifier: string, options: seq<(string, Value)>, lib: Library)
    requires Configure(identifier, options, lib).Ok?
    ensures KeyAndTokenUsable(Configure(identifier, options, lib).value)
  {
    OptionsKeepKeyAndTokenUsable(Defaults(identifier, options), options, lib);
  }

  // ---------------------------------------------------------------------
  // Credentials

  /** Neos's security context: not initialised (no request), or initialised with the account, if any. */
  datatype SecurityContext = NotInitialized | Initialized(account: Option<string>)

  /** The account and refresh token the client is created and authenticated with. */
  datatype Credentials = Credentials(accountIdentifier: string, refreshToken: string)

  /**
   * `getPixxioClient`'s choice of refresh token. `secrets` maps account
   * identifiers to the refresh token of their stored client secret.
   */
  function SelectCredentials(shared: Option<string>, context: SecurityContext, secrets: map<string, string>)
    : Result<Credentials, PixxioError>
  {
    if context == Initialized(None) then Err(TypeError("Error: call to a member function getAccountIdentifier() on null"))
    else
      var account := if context.Initialized? then context.account.value else "shared";
      var personal := if context.Initialized? && account in secrets then Some(secrets[account]) else None;
      if shared.Some? && !IsEmptyString(shared.value) && (personal.None? || personal.value == "") then
        Ok(Credentials(account, shared.value))
      else if personal.None? || personal.value == "" then Err(MissingClientSecret(account))
      else Ok(Credentials(account, personal.value))
  }

  /**
   * The shared token is used when one is configured and the account has no
   * secret or one with an empty token; otherwise the account's own token; and
   * without a non-empty token selection fails with MissingClientSecret.
   */
  lemma CredentialSelection(shared: Option<string>, context: SecurityContext, secrets: map<string, string>)
    requires context != Initialized(None)
    ensures var r := SelectCredentials(shared, context, secrets);
            var account := if context.Initialized? then context.account.value else "shared";
            var personal := if context.Initialized? && account in secrets then secrets[account] else "";
            var sharedUsable := shared.Some? && !IsEmptyString(shared.value);
            (sharedUsable && personal == "" ==> r == Ok(Credentials(account, shared.value))) &&
            (personal != "" ==> r == Ok(Credentials(account, personal))) &&
            (!sharedUsable && personal == "" ==> r == Err(MissingClientSecret(account))) &&
            (r.Ok? ==> r.value.refreshToken != "")
  {
  }
}
