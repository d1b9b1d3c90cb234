/** The token file in the host's persistence directory. The file is a cell
    holding what a read would find (nothing readable, text that is not JSON, or
    a parsed JSON value) plus a flag saying whether writes fail; each write
    attempt is counted. */
module TokenStore {
  import opened WebApi

  /** A parsed JSON value as far as the token fields go. `JNull` is the literal
      `null`; every other value is a `JObject` whose two fields are None when
      the key is missing (a number, string or array has neither key). A field
      holding something other than a string is not modelled. */
  datatype Json = JNull | JObject(accessToken: Option<string>, refreshToken: Option<string>)

  datatype FileContent = Unreadable | Malformed | Parsed(json: Json)

  datatype FileState = FileState(content: FileContent, writeFails: bool, writes: nat)

  /** JavaScript truthiness of an optional string field. */
  predicate Truthy(field: Option<string>)
  {
    field.Some? && field.value != ""
  }

  /** The document the plugin writes for a credential: both keys present. */
  function Serialize(c: Credential): (j: Json)
    ensures j.JObject? && j.accessToken == Some(c.accessToken) && j.refreshToken == Some(c.refreshToken)
  {
    JObject(Some(c.accessToken), Some(c.refreshToken))
  }

  /** What reading the file yields to fetchTokensFromStorage: a token pair to
      install, or nothing (unreadable file, malformed JSON, a missing or empty
      field, and, in this corrected form, a file holding `null`). */
  function Load(content: FileContent): (r: Option<Credential>)
    ensures r.Some? <==> content.Parsed? && content.json.JObject?
                         && Truthy(content.json.accessToken) && Truthy(content.json.refreshToken)
    ensures r.Some? ==>
              && r.value.accessToken == content.json.accessToken.value
              && r.value.refreshToken == content.json.refreshToken.value
              && r.value.accessToken != "" && r.value.refreshToken != ""
  {
    match content
    case Unreadable => None
    case Malformed => None
    case Parsed(JNull) => None
    case Parsed(JObject(a, r)) =>
      if Truthy(a) && Truthy(r) then Some(Credential(a.value, r.value)) else None
  }

  /** The same read as the source writes it: the parse sits inside a try, the
      field access `tokens.accessToken` after it does not, so a file holding
      `null` throws a TypeError out of fetchTokensFromStorage. */
  datatype LoadOutcome = NoTokens | Tokens(cred: Credential) | TypeErrorThrown

  function LoadAsWritten(content: FileContent): (r: LoadOutcome)
    ensures content != Parsed(JNull) ==>
              r == (match Load(content) case Some(c) => Tokens(c) case None => NoTokens)
  {
    match content
    case Unreadable => NoTokens
    case Malformed => NoTokens
    case Parsed(JNull) => TypeErrorThrown
    case Parsed(JObject(a, r)) =>
      if Truthy(a) && Truthy(r) then Tokens(Credential(a.value, r.value)) else NoTokens
  }

  /** The discrepancy: a `null` file makes the as-written read throw, where
      every other unusable file is skipped quietly. */
  lemma NullFileThrows()
    ensures LoadAsWritten(Parsed(JNull)) == TypeErrorThrown
    ensures Load(Parsed(JNull)) == None
    ensures LoadAsWritten(Parsed(JObject(None, None))) == NoTokens
  {
  }

  /** One write of a credential's document; a failed write leaves the file as
      it was. */
  function Write(f: FileState, c: Credential): (r: FileState)
    ensures r.writes == f.writes + 1 && r.writeFails == f.writeFails
    ensures r.content == if f.writeFails then f.content else Parsed(Serialize(c))
  {
    if f.writeFails then f.(writes := f.writes + 1)
    else f.(content := Parsed(Serialize(c)), writes := f.writes + 1)
  }

  /** The write of the guarded persistTokens: nothing unless both tokens are set. */
  function GuardedWrite(f: FileState, c: Credential): (r: FileState)
    ensures c.accessToken == "" || c.refreshToken == "" ==> r == f
    ensures c.accessToken != "" && c.refreshToken != "" ==> r == Write(f, c)
  {
    if c.accessToken == "" || c.refreshToken == "" then f else Write(f, c)
  }

  /** A pair with both tokens set survives a successful write and a read. */
  lemma WriteThenLoad(f: FileState, c: Credential)
    requires c.accessToken != "" && c.refreshToken != ""
    ensures !f.writeFails ==> Load(GuardedWrite(f, c).content) == Some(c)
    ensures f.writeFails ==> Load(GuardedWrite(f, c).content) == Load(f.content)
  {
  }

  /** An unguarded write of an incomplete pair stores a document that reads back
      as no tokens at all. */
  lemma IncompleteWriteLoadsNothing(f: FileState, c: Credential)
    requires c.accessToken == "" || c.refreshToken == ""
    ensures !f.writeFails ==> Load(Write(f, c).content) == None
  {
  }

  /** The file system object. */
  class TokenFile {
    var content: FileContent
    var writeFails: bool
    var writes: nat

    ghost function State(): FileState
      reads this
    {
      FileState(content, writeFails, writes)
    }

    constructor (content: FileContent, writeFails: bool)
      ensures State() == FileState(content, writeFails, 0)
    {
      this.content, this.writeFails, writes := content, writeFails, 0;
    }

    /** Read and parse the file. */
    method ReadFileSync() returns (c: FileContent)
      ensures c == content
    {
      c := content;
    }

    /** Write a document; `ok` is false when the write throws. */
    method WriteFileSync(c: Credential) returns (ok: bool)
      modifies this
      ensures ok == !old(writeFails)
      ensures State() == Write(old(State()), c)
    {
      ok := !writeFails;
      if ok {
        content := Parsed(Serialize(c));
      }
      writes := writes + 1;
    }
  }
}
