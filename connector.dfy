/** `AicConnector`: handles one message at a time. It parses the message,
    names it, uploads the output directory to MinIO and sends the decision.
    Everything the connector does to the outside world is appended to a trace
    of `Effect`s. The parse outcome, the clock, the UUID, the directory listing
    and each upload's outcome come in with the message as a `MessageEnv`. */
module Connector {
  import opened Wrappers
  import opened Text
  import opened Config
  import opened SaeMessages
  import opened StoreOutput
  import opened Decisions

  /** A reading of the local clock (`datetime.now()`, no time zone). */
  datatype DateTime = DateTime(year: nat, month: nat, day: nat, hour: nat, minute: nat, second: nat)

  predicate ValidDateTime(t: DateTime) {
    1 <= t.year <= 9999 && 1 <= t.month <= 12 && 1 <= t.day <= 31
    && t.hour < 24 && t.minute < 60 && t.second < 60
  }

  /** `uuid4().hex`: 32 lower-case hexadecimal digits. */
  predicate IsUuidHex(h: string) {
    |h| == 32 && AllLowerHex(h)
  }

  /** The shape of a message id: `YYYYmmdd_HHMMSS_` and six hex digits. */
  predicate IsSaeId(s: string) {
    |s| == 22 && AllDigits(s[..8]) && s[8] == '_' && AllDigits(s[9..15]) && s[15] == '_' && AllLowerHex(s[16..])
  }

  /** The message id: the `%Y%m%d_%H%M%S` rendering of the time, `_`, and the
      first six hex digits of the UUID. */
  function SaeId(now: DateTime, uuidHex: string): (id: string)
    requires ValidDateTime(now) && IsUuidHex(uuidHex)
    ensures IsSaeId(id)
  {
    assert Pow10(2) == 100 && Pow10(4) == 10000;
    var id := ZeroPadded(now.year, 4) + ZeroPadded(now.month, 2) + ZeroPadded(now.day, 2) + "_"
      + ZeroPadded(now.hour, 2) + ZeroPadded(now.minute, 2) + ZeroPadded(now.second, 2) + "_"
      + uuidHex[..6];
    assert id[..8] == ZeroPadded(now.year, 4) + ZeroPadded(now.month, 2) + ZeroPadded(now.day, 2);
    assert id[9..15] == ZeroPadded(now.hour, 2) + ZeroPadded(now.minute, 2) + ZeroPadded(now.second, 2);
    assert id[16..] == uuidHex[..6];
    id
  }

  /** The id can be read back: its fields give the clock reading and the UUID prefix. */
  lemma SaeIdFields(now: DateTime, uuidHex: string)
    requires ValidDateTime(now) && IsUuidHex(uuidHex)
    ensures var id := SaeId(now, uuidHex);
      && DecimalValue(id[..4]) == now.year && DecimalValue(id[4..6]) == now.month && DecimalValue(id[6..8]) == now.day
      && DecimalValue(id[9..11]) == now.hour && DecimalValue(id[11..13]) == now.minute && DecimalValue(id[13..15]) == now.second
      && id[16..] == uuidHex[..6]
  {
    assert Pow10(2) == 100 && Pow10(4) == 10000;
    var id := SaeId(now, uuidHex);
    assert id[..4] == ZeroPadded(now.year, 4);
    assert id[4..6] == ZeroPadded(now.month, 2);
    assert id[6..8] == ZeroPadded(now.day, 2);
    assert id[9..11] == ZeroPadded(now.hour, 2);
    assert id[11..13] == ZeroPadded(now.minute, 2);
    assert id[13..15] == ZeroPadded(now.second, 2);
    DecimalRoundTrip(now.year, 4);
    DecimalRoundTrip(now.month, 2);
    DecimalRoundTrip(now.day, 2);
    DecimalRoundTrip(now.hour, 2);
    DecimalRoundTrip(now.minute, 2);
    DecimalRoundTrip(now.second, 2);
  }

  /** Two messages get the same id only when taken in the same second with the same UUID prefix. */
  lemma SaeIdInjective(t1: DateTime, h1: string, t2: DateTime, h2: string)
    requires ValidDateTime(t1) && IsUuidHex(h1) && ValidDateTime(t2) && IsUuidHex(h2)
    requires SaeId(t1, h1) == SaeId(t2, h2)
    ensures t1 == t2 && h1[..6] == h2[..6]
  {
    SaeIdFields(t1, h1);
    SaeIdFields(t2, h2);
  }

  /** One entry of the output directory and what the MinIO client does when it is uploaded. */
  datatype DirEntry = DirEntry(name: string, client: ClientBehaviour)

  /** A directory entry's name: not empty, no separator. */
  predicate IsFileName(name: string) {
    name != [] && '/' !in name
  }

  /** Everything outside the connector that one call of `get` sees. */
  datatype MessageEnv = MessageEnv(
    parsed: Result<SaeMessage, DecodeError>,
    now: DateTime,
    uuidHex: string,
    makedirsFails: bool,
    outputDir: seq<DirEntry>,
    tokenReply: TokenReply,
    decisionReply: DecisionReply)

  /** What the clock, `uuid4` and the directory listing can deliver. */
  predicate WellFormed(env: MessageEnv) {
    ValidDateTime(env.now) && IsUuidHex(env.uuidHex)
    && forall i :: 0 <= i < |env.outputDir| ==> IsFileName(env.outputDir[i].name)
  }

  datatype SaveError = MakeDirsFailed | UploadFailed(error: UploadError)

  /** An upload attempt, a logged saving failure, or a step of the HTTP exchange. */
  datatype Effect =
    | UploadAttempted(put: PutObject)
    | SaveErrorLogged(error: SaveError)
    | Http(effect: HttpEffect)

  /** The scratch directory, relative to the working directory. */
  const OutputDir := "output"

  /** The put for one entry of directory `dir`: object `{id}/{name}`, file `{dir}/{name}`. */
  function ObjectPut(minio: MinioConfig, dir: string, saeId: string, entry: DirEntry): PutObject {
    PutObject(minio.bucketName, saeId + "/" + entry.name, FilePath(dir, entry.name))
  }

  /** The upload loop. It sits inside the `try`, so the first upload that
      raises is logged and ends the loop. */
  function UploadEffects(minio: MinioConfig, dir: string, saeId: string, entries: seq<DirEntry>): (effects: seq<Effect>)
    ensures forall e :: e in effects ==> !e.Http?
  {
    if entries == [] then []
    else
      var entry := entries[0];
      var attempt := SaveFileToMinio(minio, FilePath(dir, entry.name), saeId + "/" + entry.name, entry.client);
      (if attempt.put.Some? then [UploadAttempted(attempt.put.value)] else [])
      + (if attempt.raised.Some? then [SaveErrorLogged(UploadFailed(attempt.raised.value))]
         else UploadEffects(minio, dir, saeId, entries[1..]))
  }

  /** `_save_sae_media`: create the directory, then upload its entries when
      HTTP output is configured; any failure is logged, never raised. */
  function SaveEffects(config: AicConnectorConfig, saeId: string, makedirsFails: bool, entries: seq<DirEntry>): (effects: seq<Effect>)
    ensures forall e :: e in effects ==> !e.Http?
  {
    if makedirsFails then [SaveErrorLogged(MakeDirsFailed)]
    else if config.httpOutput.None? then []
    else UploadEffects(config.httpOutput.value.minio, OutputDir, saeId, entries)
  }

  function Lift(effects: seq<HttpEffect>): (lifted: seq<Effect>)
    ensures |lifted| == |effects|
    ensures forall i :: 0 <= i < |lifted| ==> lifted[i] == Http(effects[i])
  {
    seq(|effects|, i requires 0 <= i < |effects| => Http(effects[i]))
  }

  /** Everything `get` does with a message that parsed. */
  function MessageEffects(config: AicConnectorConfig, msg: SaeMessage, env: MessageEnv): seq<Effect>
    requires WellFormed(env)
  {
    var saeId := SaeId(env.now, env.uuidHex);
    SaveEffects(config, saeId, env.makedirsFails, env.outputDir) + SendPart(config, msg, saeId, env)
  }

  /** The decision post that follows the upload, when an HTTP output is configured. */
  function SendPart(config: AicConnectorConfig, msg: SaeMessage, saeId: string, env: MessageEnv): seq<Effect>
  {
    match config.httpOutput
    case None => []
    case Some(http) => Lift(SendEffects(http, CreateDecisionMsg(http, msg, saeId), env.tokenReply, env.decisionReply))
  }

  lemma AppendAssociative<T>(a: seq<T>, b: seq<T>, c: seq<T>)
    ensures (a + b) + c == a + (b + c)
  {
  }

  // The upload loop in closed form.

  /** The index of the first entry whose upload raises, or the number of entries. */
  function FirstFailure(entries: seq<DirEntry>): (k: nat)
    ensures k <= |entries|
    ensures forall i :: 0 <= i < k ==> entries[i].client == PutSucceeds
    ensures k < |entries| ==> entries[k].client != PutSucceeds
  {
    if entries == [] || entries[0].client != PutSucceeds then 0 else 1 + FirstFailure(entries[1..])
  }

  /** One attempted put per entry, in listing order. */
  function SuccessfulUploads(minio: MinioConfig, dir: string, saeId: string, entries: seq<DirEntry>): (effects: seq<Effect>)
    ensures |effects| == |entries|
    ensures forall i :: 0 <= i < |entries| ==> effects[i] == UploadAttempted(ObjectPut(minio, dir, saeId, entries[i]))
  {
    if entries == [] then [] else [UploadAttempted(ObjectPut(minio, dir, saeId, entries[0]))] + SuccessfulUploads(minio, dir, saeId, entries[1..])
  }

  lemma SuccessfulUploadsAppend(minio: MinioConfig, dir: string, saeId: string, entries: seq<DirEntry>, entry: DirEntry)
    ensures SuccessfulUploads(minio, dir, saeId, entries + [entry])
         == SuccessfulUploads(minio, dir, saeId, entries) + [UploadAttempted(ObjectPut(minio, dir, saeId, entry))]
  {
  }

  /** What a failing upload leaves in the trace: the attempted put, if the
      client could be built, then the logged error. */
  function FailureEffects(minio: MinioConfig, dir: string, saeId: string, entry: DirEntry): seq<Effect> {
    match entry.client
    case RejectsSettings => [SaveErrorLogged(UploadFailed(ClientSettingsError))]
    case PutFails =>
      [UploadAttempted(ObjectPut(minio, dir, saeId, entry)),
       SaveErrorLogged(UploadFailed(UploadIOError(UploadErrorMessage(FilePath(dir, entry.name)))))]
    case PutSucceeds => []
  }

  /** Every entry before the first failure is uploaded as `{id}/{name}`, in
      listing order; the failure is logged and nothing after it is attempted. */
  lemma {:induction false} UploadsUntilFirstFailure(minio: MinioConfig, dir: string, saeId: string, entries: seq<DirEntry>)
    ensures var k := FirstFailure(entries);
      UploadEffects(minio, dir, saeId, entries)
      == SuccessfulUploads(minio, dir, saeId, entries[..k]) + (if k < |entries| then FailureEffects(minio, dir, saeId, entries[k]) else [])
  {
    if entries != [] {
      var entry := entries[0];
      var k := FirstFailure(entries);
      var up := UploadAttempted(ObjectPut(minio, dir, saeId, entry));
      if entry.client == PutSucceeds {
        var rest := entries[1..];
        var tail := if k < |entries| then FailureEffects(minio, dir, saeId, entries[k]) else [];
        assert UploadEffects(minio, dir, saeId, entries) == [up] + UploadEffects(minio, dir, saeId, rest);
        UploadsUntilFirstFailure(minio, dir, saeId, rest);
        assert FirstFailure(rest) == k - 1;
        assert tail == if k - 1 < |rest| then FailureEffects(minio, dir, saeId, rest[k - 1]) else [];
        assert entries[..k][1..] == rest[..k - 1];
      } else {
        assert entries[..k] == [];
        match entry.client
        case RejectsSettings =>
        case PutFails =>
      }
    }
  }

  /** A failed upload hides the rest of the listing. */
  lemma {:induction false} FailureStopsUploads(minio: MinioConfig, dir: string, saeId: string, before: seq<DirEntry>, failing: DirEntry, after: seq<DirEntry>)
    requires failing.client != PutSucceeds
    ensures UploadEffects(minio, dir, saeId, before + [failing] + after) == UploadEffects(minio, dir, saeId, before + [failing])
  {
    if before == [] {
      assert (before + [failing] + after)[1..] == after;
    } else {
      assert (before + [failing] + after)[1..] == before[1..] + [failing] + after;
      assert (before + [failing])[1..] == before[1..] + [failing];
      FailureStopsUploads(minio, dir, saeId, before[1..], failing, after);
    }
  }

  /** Without HTTP output nothing is uploaded and nothing is sent. */
  lemma NothingLeavesWithoutHttpOutput(config: AicConnectorConfig, msg: SaeMessage, env: MessageEnv)
    requires WellFormed(env) && config.httpOutput.None?
    ensures MessageEffects(config, msg, env) == if env.makedirsFails then [SaveErrorLogged(MakeDirsFailed)] else []
  {
  }

  /** Saving comes first and sending second; the HTTP exchange starts exactly
      when HTTP output is configured, whatever happened while saving. */
  lemma SaveThenSend(config: AicConnectorConfig, msg: SaeMessage, env: MessageEnv)
    requires WellFormed(env)
    ensures var effects := MessageEffects(config, msg, env);
      && (forall i, j :: 0 <= i < j < |effects| && effects[i].Http? ==> effects[j].Http?)
      && ((exists i :: 0 <= i < |effects| && effects[i].Http?) <==> config.httpOutput.Some?)
  {
    var saeId := SaeId(env.now, env.uuidHex);
    var saved := SaveEffects(config, saeId, env.makedirsFails, env.outputDir);
    var effects := MessageEffects(config, msg, env);
    match config.httpOutput
    case None =>
      assert effects == saved;
    case Some(http) =>
      var sent := SendEffects(http, CreateDecisionMsg(http, msg, saeId), env.tokenReply, env.decisionReply);
      SendFailureIsLogged(http, CreateDecisionMsg(http, msg, saeId), env.tokenReply, env.decisionReply);
      assert effects == saved + Lift(sent);
      assert effects[|saved|].Http?;
      assert forall i :: 0 <= i < |saved| ==> effects[i] == saved[i];
  }

  /** The decision's media link points into the same bucket and under the
      same id as the uploaded objects. */
  lemma MediaUrlMatchesObjects(config: AicConnectorConfig, msg: SaeMessage, env: MessageEnv, i: nat)
    requires WellFormed(env) && config.httpOutput.Some? && !env.makedirsFails
    requires i < FirstFailure(env.outputDir)
    ensures var saeId := SaeId(env.now, env.uuidHex);
      var http := config.httpOutput.value;
      var put := ObjectPut(http.minio, OutputDir, saeId, env.outputDir[i]);
      && UploadAttempted(put) in MessageEffects(config, msg, env)
      && CreateDecisionMsg(http, msg, saeId)["media_url"] == JString(put.bucket + "/" + saeId + "/annotated.jpg")
      && put.objectName == saeId + "/" + env.outputDir[i].name
  {
    var saeId := SaeId(env.now, env.uuidHex);
    var http := config.httpOutput.value;
    var k := FirstFailure(env.outputDir);
    UploadsUntilFirstFailure(http.minio, OutputDir, saeId, env.outputDir);
    var uploads := UploadEffects(http.minio, OutputDir, saeId, env.outputDir);
    var successes := SuccessfulUploads(http.minio, OutputDir, saeId, env.outputDir[..k]);
    DecisionPayload(http, msg, saeId);
    assert successes[i] in uploads;
    assert uploads <= MessageEffects(config, msg, env);
  }

  /** The upload loop of `_save_sae_media`, over the entries of directory
      `dir` in listing order; returns what it leaves in the trace. */
  method UploadAll(minio: MinioConfig, dir: string, saeId: string, entries: seq<DirEntry>) returns (logged: seq<Effect>)
    ensures var k := FirstFailure(entries);
      logged == SuccessfulUploads(minio, dir, saeId, entries[..k]) + (if k < |entries| then FailureEffects(minio, dir, saeId, entries[k]) else [])
  {
    logged := [];
    var i := 0;
    while i < |entries|
      invariant i <= FirstFailure(entries)
      invariant logged == SuccessfulUploads(minio, dir, saeId, entries[..i])
    {
      var entry := entries[i];
      var step, failed := UploadOne(minio, dir, saeId, entry);
      logged := logged + step;
      if failed {
        return;
      }
      assert entries[..i + 1] == entries[..i] + [entry];
      SuccessfulUploadsAppend(minio, dir, saeId, entries[..i], entry);
      i := i + 1;
    }
  }

  /** One turn of the loop: upload the entry; an exception is logged and reported as `failed`. */
  method UploadOne(minio: MinioConfig, dir: string, saeId: string, entry: DirEntry) returns (step: seq<Effect>, failed: bool)
    ensures failed <==> entry.client != PutSucceeds
    ensures step == if failed then FailureEffects(minio, dir, saeId, entry) else [UploadAttempted(ObjectPut(minio, dir, saeId, entry))]
  {
    var attempt := SaveFileToMinio(minio, FilePath(dir, entry.name), saeId + "/" + entry.name, entry.client);
    step := if attempt.put.Some? then [UploadAttempted(attempt.put.value)] else [];
    failed := attempt.raised.Some?;
    if failed {
      step := step + [SaveErrorLogged(UploadFailed(attempt.raised.value))];
    }
  }

  /** The connector: its configuration, the HTTP sender built when HTTP output
      is configured, and the trace of what it has done. */
  class AicConnector {
    const config: AicConnectorConfig
    const httpOutput: HttpOutput?
    const isDebug: bool
    var effects: seq<Effect>

    /** The sender exists exactly when HTTP output is configured, and uses that configuration. */
    predicate Valid() {
      (httpOutput == null <==> config.httpOutput.None?)
      && (httpOutput != null ==> httpOutput.config == config.httpOutput.value)
    }

    constructor (config: AicConnectorConfig)
      ensures this.config == config && Valid()
      ensures isDebug <==> config.logLevel == Debug
      ensures effects == []
    {
      this.config := config;
      if config.httpOutput.Some? {
        httpOutput := new HttpOutput(config.httpOutput.value);
      } else {
        httpOutput := null;
      }
      isDebug := config.logLevel.Value() == "DEBUG";
      effects := [];
    }

    /** `_save_sae_media`. */
    method SaveSaeMedia(saeId: string, makedirsFails: bool, entries: seq<DirEntry>)
      modifies this
      ensures effects == old(effects) + SaveEffects(config, saeId, makedirsFails, entries)
    {
      if makedirsFails {
        effects := effects + [SaveErrorLogged(MakeDirsFailed)];
        return;
      }
      if config.httpOutput.Some? {
        var logged := UploadAll(config.httpOutput.value.minio, OutputDir, saeId, entries);
        UploadsUntilFirstFailure(config.httpOutput.value.minio, OutputDir, saeId, entries);
        effects := effects + logged;
      }
    }

    /** `get`: a message that does not parse raises before anything else
        happens; otherwise its media is saved under a fresh id and then, if
        configured, the decision is sent. */
    method Get(env: MessageEnv) returns (r: Result<(), DecodeError>)
      requires Valid() && WellFormed(env)
      modifies this
      ensures r.Err? <==> env.parsed.Err?
      ensures r.Err? ==> r.error == env.parsed.error && effects == old(effects)
      ensures r.Ok? ==> effects == old(effects) + MessageEffects(config, env.parsed.value, env)
    {
      if env.parsed.Err? {
        return Err(env.parsed.error);
      }
      var msg := env.parsed.value;
      var saeId := SaeId(env.now, env.uuidHex);
      ghost var before := effects;
      SaveSaeMedia(saeId, env.makedirsFails, env.outputDir);
      var sent: seq<HttpEffect> := [];
      if httpOutput != null {
        sent := httpOutput.SendDecisionMessage(msg, saeId, env.tokenReply, env.decisionReply);
      }
      assert Lift(sent) == SendPart(config, msg, saeId, env);
      effects := effects + Lift(sent);
      AppendAssociative(before, SaveEffects(config, saeId, env.makedirsFails, env.outputDir), Lift(sent));
      return Ok(());
    }
  }
}
