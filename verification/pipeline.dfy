/** The entry point: token, extract, transform (with the artist lookups), load,
    in that order, with no branching between stages beyond each stage's own
    guards. Every external call is a function of its request, so a run is
    determined by its inputs and yields the calls it made. */
module Pipeline {
  import opened Wrappers
  import opened Errors
  import opened Records
  import opened Auth
  import opened Extractor
  import opened ArtistImages
  import opened Transformer
  import opened Loader

  /** The services the job talks to. */
  datatype Services = Services(
    tokenEndpoint: TokenRequest -> TokenResponse,
    recentlyPlayed: RecentRequest -> Extracted,
    artistEndpoint: Fetch,
    database: Writer)

  /** A call the job makes to the music service, in the order made. */
  datatype Call = TokenCall(token: TokenRequest) | RecentCall(recent: RecentRequest) | ArtistCall(artist: ArtistRequest)

  /** A run either completes, whatever the load did, or is aborted by an
      uncaught exception from the token, extract or transform stage. */
  datatype Outcome = Completed(load: LoadOutcome) | Aborted(error: Fatal)

  datatype Run = Run(outcome: Outcome, calls: seq<Call>)

  /** The process exit status: zero unless an exception escaped. */
  function ExitCode(run: Run): (code: int)
    ensures code == 0 <==> run.outcome.Completed?
  {
    if run.outcome.Completed? then 0 else 1
  }

  function ArtistCalls(rs: seq<ArtistRequest>): (cs: seq<Call>)
    ensures |cs| == |rs| && forall i :: 0 <= i < |rs| ==> cs[i] == ArtistCall(rs[i])
  {
    seq(|rs|, i requires 0 <= i < |rs| => ArtistCall(rs[i]))
  }

  /** The transform and load stages on an extracted batch. */
  function TransformAndLoad(data: Extracted, token: string, services: Services,
                            parseDate: DateParser, toCentral: ZoneConversion): (o: Outcome)
    ensures o.Aborted? <==> HasItems(data) && BatchError(data.items.items).Some?
    ensures o.Aborted? ==> o.error == BatchError(data.items.items).value
    ensures o.Completed? ==> (o.load.NothingLoaded? <==> !HasItems(data))
    ensures o.Completed? ==>
              o.load == Load(Transform(data, token, services.artistEndpoint, parseDate, toCentral).value,
                             services.database)
  {
    match Transform(data, token, services.artistEndpoint, parseDate, toCentral)
    case Failure(e) => Aborted(e)
    case Success(table) => Completed(Load(table, services.database))
  }

  /** Everything after the token exchange, given the access token. */
  function RunWithToken(token: string, nowMs: int, services: Services,
                        parseDate: DateParser, toCentral: ZoneConversion): (run: Run)
    ensures |run.calls| >= 1 && run.calls[0] == RecentCall(RecentRequestFor(token, nowMs))
    ensures forall i :: 1 <= i < |run.calls| ==>
              run.calls[i].ArtistCall? && BearerToken(run.calls[i].artist.authorization) == Some(token)
    ensures var reply := services.recentlyPlayed(RecentRequestFor(token, nowMs));
            && (reply.items.Absent? ==> run.outcome == Aborted(KeyError("items")))
            && (reply.items.Null? ==> run.outcome.Aborted? && run.outcome.error.TypeError?)
            && (reply.items.Items? ==> run.outcome == TransformAndLoad(reply, token, services, parseDate, toCentral))
  {
    var recentRequest := RecentRequestFor(token, nowMs);
    match CheckExtracted(services.recentlyPlayed(recentRequest))
    case Failure(e) => Run(Aborted(e), [RecentCall(recentRequest)])
    case Success(data) =>
      var lookups := ArtistCalls(TransformRequests(data, token, parseDate, toCentral));
      Run(TransformAndLoad(data, token, services, parseDate, toCentral), [RecentCall(recentRequest)] + lookups)
  }

  /** Helper for `ArtistLookupsOfRun`: after the recently-played GET come the
      transform's lookups, and nothing when the reply has no `items` list. */
  lemma RunWithTokenLookups(token: string, nowMs: int, services: Services,
                            parseDate: DateParser, toCentral: ZoneConversion)
    ensures var run := RunWithToken(token, nowMs, services, parseDate, toCentral);
            var reply := services.recentlyPlayed(RecentRequestFor(token, nowMs));
            && (!reply.items.Items? ==> |run.calls| == 1)
            && (reply.items.Items? ==> run.calls[1..] == ArtistCalls(TransformRequests(reply, token, parseDate, toCentral)))
  {
    var reply := services.recentlyPlayed(RecentRequestFor(token, nowMs));
    if reply.items.Items? {
      var lookups := ArtistCalls(TransformRequests(reply, token, parseDate, toCentral));
      assert RunWithToken(token, nowMs, services, parseDate, toCentral).calls
               == [RecentCall(RecentRequestFor(token, nowMs))] + lookups;
      assert ([RecentCall(RecentRequestFor(token, nowMs))] + lookups)[1..] == lookups;
    }
  }

  /** `main`: the token exchange, then the remaining stages with its token. */
  function Main(config: Config, nowMs: int, services: Services,
                parseDate: DateParser, toCentral: ZoneConversion): (run: Run)
    ensures |run.calls| >= 1 && run.calls[0] == TokenCall(TokenRequestFor(config))
    ensures AccessToken(services.tokenEndpoint(TokenRequestFor(config))).Failure? ==>
              |run.calls| == 1 && run.outcome.Aborted?
    ensures AccessToken(services.tokenEndpoint(TokenRequestFor(config))).Success? ==>
              var rest := RunWithToken(AccessToken(services.tokenEndpoint(TokenRequestFor(config))).value,
                                       nowMs, services, parseDate, toCentral);
              run.outcome == rest.outcome && run.calls[1..] == rest.calls
  {
    var tokenRequest := TokenRequestFor(config);
    match AccessToken(services.tokenEndpoint(tokenRequest))
    case Failure(e) => Run(Aborted(e), [TokenCall(tokenRequest)])
    case Success(token) =>
      var rest := RunWithToken(token, nowMs, services, parseDate, toCentral);
      Run(rest.outcome, [TokenCall(tokenRequest)] + rest.calls)
  }

  /** A token reply without a usable access token aborts the run after the
      token call alone: the recently-played endpoint is never called. */
  lemma TokenFailureStopsBeforeExtraction(config: Config, nowMs: int, services: Services,
                                          parseDate: DateParser, toCentral: ZoneConversion)
    requires AccessToken(services.tokenEndpoint(TokenRequestFor(config))).Failure?
    ensures var run := Main(config, nowMs, services, parseDate, toCentral);
            && run.outcome == Aborted(AccessToken(services.tokenEndpoint(TokenRequestFor(config))).error)
            && run.calls == [TokenCall(TokenRequestFor(config))]
            && forall i :: 0 <= i < |run.calls| ==> !run.calls[i].RecentCall?
  {
  }

  /** The calls of a run: the token exchange first, then (with a token) the
      one recently-played GET for the last twelve hours, then only artist
      lookups, every call after the first carrying the Bearer token. */
  lemma CallOrder(config: Config, nowMs: int, services: Services,
                  parseDate: DateParser, toCentral: ZoneConversion)
    ensures var run := Main(config, nowMs, services, parseDate, toCentral);
            && |run.calls| >= 1
            && run.calls[0] == TokenCall(TokenRequestFor(config))
            && (|run.calls| > 1 ==>
                  var token := AccessToken(services.tokenEndpoint(TokenRequestFor(config)));
                  && token.Success?
                  && run.calls[1] == RecentCall(RecentRequestFor(token.value, nowMs))
                  && run.calls[1].recent.after == nowMs - LookbackMs
                  && (forall i :: 2 <= i < |run.calls| ==>
                        run.calls[i].ArtistCall?
                        && BearerToken(run.calls[i].artist.authorization) == Some(token.value))
                  && var table := Transform(services.recentlyPlayed(RecentRequestFor(token.value, nowMs)), token.value,
                                            services.artistEndpoint, parseDate, toCentral);
                     (table.Success? && table.value.Some? ==>
                        run.calls[2..] == ArtistCalls(LookupRequests(ArtistIds(table.value.value), token.value))))
  {
    var run := Main(config, nowMs, services, parseDate, toCentral);
    var token := AccessToken(services.tokenEndpoint(TokenRequestFor(config)));
    if token.Success? {
      var rest := RunWithToken(token.value, nowMs, services, parseDate, toCentral);
      assert forall i :: 1 <= i < |run.calls| ==> run.calls[i] == rest.calls[i - 1];
      assert RecentRequestFor(token.value, nowMs).after == nowMs - LookbackMs;
      ArtistLookupsOfRun(config, nowMs, services, parseDate, toCentral);
    }
  }

  /** The artist lookups of a run: after the token call and the
      recently-played GET, exactly one lookup per distinct artist id of the
      transformed table, in order of first appearance, and none when the run
      produced no table. */
  lemma ArtistLookupsOfRun(config: Config, nowMs: int, services: Services,
                           parseDate: DateParser, toCentral: ZoneConversion)
    requires AccessToken(services.tokenEndpoint(TokenRequestFor(config))).Success?
    ensures var run := Main(config, nowMs, services, parseDate, toCentral);
            var token := AccessToken(services.tokenEndpoint(TokenRequestFor(config))).value;
            var reply := services.recentlyPlayed(RecentRequestFor(token, nowMs));
            var table := Transform(reply, token, services.artistEndpoint, parseDate, toCentral);
            && |run.calls| >= 2
            && (reply.items.Items? && table.Success? && table.value.Some? ==>
                  run.calls[2..] == ArtistCalls(LookupRequests(ArtistIds(table.value.value), token)))
            && (!(reply.items.Items? && table.Success? && table.value.Some?) ==> |run.calls| == 2)
  {
    var token := AccessToken(services.tokenEndpoint(TokenRequestFor(config))).value;
    var reply := services.recentlyPlayed(RecentRequestFor(token, nowMs));
    var run := Main(config, nowMs, services, parseDate, toCentral);
    var rest := RunWithToken(token, nowMs, services, parseDate, toCentral);
    RunWithTokenLookups(token, nowMs, services, parseDate, toCentral);
    assert run.calls[1..] == rest.calls;
    var table := Transform(reply, token, services.artistEndpoint, parseDate, toCentral);
    if reply.items.Items? {
      assert run.calls[2..] == rest.calls[1..];
      if table.Success? && table.value.Some? {
        TransformLookups(reply, token, services.artistEndpoint, parseDate, toCentral, table.value.value);
      }
    }
  }

  /** What ends a run: exactly the fatal errors of the token, extract and
      transform stages abort it, each with its own error; a failed write is
      reported in the outcome and the run still completes with exit status
      zero. */
  lemma RunOutcome(config: Config, nowMs: int, services: Services,
                   parseDate: DateParser, toCentral: ZoneConversion)
    ensures var run := Main(config, nowMs, services, parseDate, toCentral);
            var token := AccessToken(services.tokenEndpoint(TokenRequestFor(config)));
            && (run.outcome.Aborted? <==>
                  || token.Failure?
                  || CheckExtracted(services.recentlyPlayed(RecentRequestFor(token.value, nowMs))).Failure?
                  || Transform(services.recentlyPlayed(RecentRequestFor(token.value, nowMs)), token.value,
                               services.artistEndpoint, parseDate, toCentral).Failure?)
            && (token.Failure? ==> run.outcome == Aborted(token.error))
            && (run.outcome.Completed? ==>
                  && token.Success?
                  && ExitCode(run) == 0
                  && (var data := services.recentlyPlayed(RecentRequestFor(token.value, nowMs));
                      run.outcome.load == Load(Transform(data, token.value, services.artistEndpoint,
                                                         parseDate, toCentral).value,
                                               services.database)))
  {
  }

  /** The error a run aborts with once it holds a token: `KeyError` for a
      reply without `items`, `TypeError` for a null list, and otherwise the
      batch's first pandas error. */
  lemma RunAbortsWith(config: Config, nowMs: int, services: Services,
                      parseDate: DateParser, toCentral: ZoneConversion)
    requires AccessToken(services.tokenEndpoint(TokenRequestFor(config))).Success?
    ensures var run := Main(config, nowMs, services, parseDate, toCentral);
            var token := AccessToken(services.tokenEndpoint(TokenRequestFor(config))).value;
            var reply := services.recentlyPlayed(RecentRequestFor(token, nowMs));
            && (reply.items.Absent? ==> run.outcome == Aborted(KeyError("items")))
            && (reply.items.Null? ==> run.outcome.Aborted? && run.outcome.error.TypeError?)
            && (HasItems(reply) && BatchError(reply.items.items).Some? ==>
                  run.outcome == Aborted(BatchError(reply.items.items).value))
            && (HasItems(reply) && BatchError(reply.items.items).None? ==>
                  run.outcome.Completed? && !run.outcome.load.NothingLoaded?)
  {
  }

  /** An extraction with no items loads nothing and completes normally. */
  lemma EmptyExtractionLoadsNothing(config: Config, nowMs: int, services: Services,
                                    parseDate: DateParser, toCentral: ZoneConversion)
    requires AccessToken(services.tokenEndpoint(TokenRequestFor(config))).Success?
    requires var token := AccessToken(services.tokenEndpoint(TokenRequestFor(config))).value;
             services.recentlyPlayed(RecentRequestFor(token, nowMs)).items == Items([])
    ensures var run := Main(config, nowMs, services, parseDate, toCentral);
            && run.outcome == Completed(NothingLoaded)
            && Writes(run.outcome.load) == []
            && |run.calls| == 2
            && ExitCode(run) == 0
  {
  }
}
