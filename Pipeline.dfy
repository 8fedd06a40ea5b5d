/** The retrieval pipeline of `randomInternetArchive`: one shared channel record filled stage by
    stage (`tryToGet`), and the whole-pipeline retry loop (`decideWithResult`). */
module Pipeline {
  import opened Wrappers
  import opened Decimal
  import opened Query
  import opened Random
  import opened Sampling
  import opened Files
  import opened Format

  /** The options of `randomInternetArchive` other than `request` and `random`, with their
      defaults already applied (`minimumSize` 0, `proxyBaseURL` https://archive.org, `maxTries` 10). */
  datatype Config = Config(
    query: Option<string>,
    collection: Option<string>,
    mediatype: Option<string>,
    format: Option<string>,
    fileExtensions: Option<seq<string>>,
    minimumSize: int,
    maximumSize: Option<int>,
    proxyBaseURL: string,
    maxTries: int)

  function Filter(cfg: Config): FileFilter {
    FileFilter(cfg.fileExtensions, cfg.minimumSize, cfg.maximumSize)
  }

  function Dict(cfg: Config): QueryDict {
    QueryDict(cfg.collection, cfg.mediatype, cfg.format)
  }

  /** The parts of a metadata body the pipeline reads. */
  datatype Metadata = Metadata(dir: string, files: seq<Option<File>>, workableServers: seq<string>)

  /** The injected `request` collaborator, one function per endpoint it is used for. Each maps the
      attempt number and the requested URL to the decoded body's relevant part, or to the error the
      collaborator reports. Indexing by attempt lets a response differ from one attempt to the next. */
  datatype Archive = Archive(
    count: (nat, string) -> Result<int>,
    search: (nat, string) -> Result<seq<Item>>,
    metadata: (nat, string) -> Result<Metadata>)

  /** The fields of the channel record that the stages fill in. */
  datatype ChannelState = ChannelState(
    total: Option<int>,
    page: nat,
    row: Option<nat>,
    item: Option<Item>,
    dir: Option<string>,
    files: Option<seq<Option<File>>>,
    workableServers: Option<seq<string>>)

  /** The channel as it is created: only the query fields and `page: 0`. */
  const InitialState := ChannelState(None, 0, None, None, None, None, None)

  /** The one channel record of an invocation, created once and reused by every attempt. */
  class Channel {
    const query: Option<string>
    const collection: Option<string>
    const mediatype: Option<string>
    const format: Option<string>
    var total: Option<int>
    var page: nat
    var row: Option<nat>
    var item: Option<Item>
    var dir: Option<string>
    var files: Option<seq<Option<File>>>
    var workableServers: Option<seq<string>>

    function State(): ChannelState
      reads this
    {
      ChannelState(total, page, row, item, dir, files, workableServers)
    }

    predicate Holds(cfg: Config) {
      query == cfg.query && collection == cfg.collection && mediatype == cfg.mediatype && format == cfg.format
    }

    constructor (cfg: Config)
      ensures Holds(cfg) && State() == InitialState
    {
      query, collection, mediatype, format := cfg.query, cfg.collection, cfg.mediatype, cfg.format;
      total, page, row, item := None, 0, None, None;
      dir, files, workableServers := None, None, None;
    }
  }

  function Lift(fs: seq<File>): (r: seq<Option<File>>)
    ensures |r| == |fs| && forall i :: 0 <= i < |fs| ==> r[i] == Some(fs[i])
  {
    seq(|fs|, i requires 0 <= i < |fs| => Some(fs[i]))
  }

  // ---------------------------------------------------------------- the metadata stage

  /** How `getMetadata` ends when handed the channel's item. */
  datatype Completion = Requested(url: string) | Threw(exception: string)

  /** `getMetadata` as written: it reads `item.identifier`, which throws a TypeError when `getItem`
      found no doc at the sampled row and left the item `undefined`. */
  function MetadataRequestAsWritten(item: Option<Item>): (c: Completion)
    ensures c.Threw? <==> item.None?
    ensures item.Some? ==> c == Requested(MetadataURL(item.value.identifier))
  {
    match item
    case None => Threw("TypeError: Cannot read properties of undefined (reading 'identifier')")
    case Some(it) => Requested(MetadataURL(it.identifier))
  }

  /** A search page shorter than the sampled row makes the stage as written throw instead of
      handing an error to `decideWithResult`, so the attempt is never retried. */
  lemma ShortPageThrowsAsWritten(docs: seq<Item>, row: nat)
    requires row >= |docs|
    ensures MetadataRequestAsWritten(GetItem(docs, row)).Threw?
  {
  }

  /** The miss needs no inconsistent archive: with a total of 50 there is no full page, so page 0
      is searched; it holds all 50 docs, and a second value of `random()` of 0.99 picks row 99. */
  lemma ConsistentPageThrowsAsWritten(docs: seq<Item>)
    requires |docs| == 50
    ensures var p := RandomPosition(50, Fraction(0, 1), Fraction(99, 100));
      p == Ok(Position(0, 99)) && MetadataRequestAsWritten(GetItem(docs, p.value.row)).Threw?
  {
    assert Scale(Fraction(99, 100), PageSize) == 99;
  }

  function SamplingMiss(p: Position): string {
    "No item at page " + NatToString(p.page) + ", row " + NatToString(p.row) + "."
  }

  /** The metadata stage as intended: a missing doc is an ordinary, retryable error. */
  function MetadataRequest(item: Option<Item>, p: Position): (r: Result<string>)
    ensures r.Ok? <==> item.Some?
    ensures item.Some? ==> r.value == MetadataURL(item.value.identifier)
    ensures item.None? ==> r.error == SamplingMiss(p)
  {
    match item
    case None => Err(SamplingMiss(p))
    case Some(it) => Ok(MetadataURL(it.identifier))
  }

  // ---------------------------------------------------------------- one attempt

  /** What one attempt yields: its outcome, how many values of `random()` have been used in all
      after it, and the channel's fields after it. */
  datatype Step = Step(outcome: Result<ArchiveResult>, calls: nat, state: ChannelState)

  /** One pass of the waterfall in `tryToGet`, as a function of the attempt number, the number
      of values of `random()` used before it, and the channel left by the previous attempt.
      The stages follow below, each taking what the earlier ones collected. */
  function AttemptOf(cfg: Config, archive: Archive, random: nat -> Draw, attempt: nat, calls: nat,
                     s: ChannelState): Step
  {
    // searchForTotal
    match archive.count(attempt, CountURL(cfg.proxyBaseURL, Dict(cfg), cfg.query))
    case Err(e) => Step(Err(e), calls, s)
    case Ok(total) => SampleStage(cfg, archive, random, attempt, calls, s.(total := Some(total)), total)
  }

  /** pickRandomPosition */
  function SampleStage(cfg: Config, archive: Archive, random: nat -> Draw, attempt: nat, calls: nat,
                       s: ChannelState, total: int): Step
  {
    match RandomPosition(total, random(calls), random(calls + 1))
    case Err(e) => Step(Err(e), calls, s)
    case Ok(p) => SearchStage(cfg, archive, random, attempt, calls + 2, s.(page := p.page, row := Some(p.row)), p)
  }

  /** searchIA, and getItem on its docs */
  function SearchStage(cfg: Config, archive: Archive, random: nat -> Draw, attempt: nat, calls: nat,
                       s: ChannelState, p: Position): Step
  {
    var url := CreateSearchURL(cfg.proxyBaseURL, Dict(cfg), SearchFields, PageSize, p.page, cfg.query);
    match archive.search(attempt, url)
    case Err(e) => Step(Err(e), calls, s)
    case Ok(docs) => MetadataStage(cfg, archive, random, attempt, calls, s.(item := GetItem(docs, p.row)), p)
  }

  /** getMetadata */
  function MetadataStage(cfg: Config, archive: Archive, random: nat -> Draw, attempt: nat, calls: nat,
                         s: ChannelState, p: Position): Step
  {
    match MetadataRequest(s.item, p)
    case Err(e) => Step(Err(e), calls, s)
    case Ok(metadataURL) =>
      match archive.metadata(attempt, metadataURL)
      case Err(e) => Step(Err(e), calls, s)
      case Ok(md) =>
        FilterStage(cfg, random, calls,
                    s.(dir := Some(md.dir), files := Some(md.files), workableServers := Some(md.workableServers)),
                    s.item.value, md)
  }

  /** filterFiles, then formatResult */
  function FilterStage(cfg: Config, random: nat -> Draw, calls: nat, s: ChannelState, it: Item, md: Metadata): Step
  {
    match FilterFiles(md.files, it.identifier, Filter(cfg))
    case Err(e) => Step(Err(e), calls, s)
    case Ok(usable) =>
      var r := FormatResultOf(cfg.collection, it, md.dir, usable, md.workableServers,
                              random(calls), random(calls + 1));
      Step(Ok(r), calls + 2, s.(files := Some(Lift(usable))))
  }

  /** `tryToGet()`: each stage reads what it needs from the channel and writes its findings back
      into the same record (`Collect`); the first error ends the attempt. */
  method TryToGet(cfg: Config, archive: Archive, channel: Channel, probable: Probable, attempt: nat)
    returns (outcome: Result<ArchiveResult>)
    requires channel.Holds(cfg)
    modifies channel, probable
    ensures Step(outcome, probable.calls, channel.State())
         == AttemptOf(cfg, archive, probable.random, attempt, old(probable.calls), old(channel.State()))
  {
    ghost var goal := AttemptOf(cfg, archive, probable.random, attempt, probable.calls, channel.State());
    var dict := QueryDict(channel.collection, channel.mediatype, channel.format);
    // searchForTotal, then Collect 'total'
    var countBody := archive.count(attempt, CountURL(cfg.proxyBaseURL, dict, channel.query));
    if countBody.Err? {
      return Err(countBody.error);
    }
    channel.total := Some(countBody.value);
    assert goal == SampleStage(cfg, archive, probable.random, attempt, probable.calls, channel.State(), countBody.value);
    // pickRandomPosition, then Collect 'page' and 'row'
    var position := PickRandomPosition(channel.total.value, probable);
    if position.Err? {
      return Err(position.error);
    }
    channel.page, channel.row := position.value.page, Some(position.value.row);
    assert goal == SearchStage(cfg, archive, probable.random, attempt, probable.calls, channel.State(), position.value);
    // searchIA, then Collect 'item' through getItem
    var searchURL := CreateSearchURL(cfg.proxyBaseURL, dict, SearchFields, PageSize, channel.page, channel.query);
    var searchBody := archive.search(attempt, searchURL);
    if searchBody.Err? {
      return Err(searchBody.error);
    }
    channel.item := GetItem(searchBody.value, channel.row.value);
    assert goal == MetadataStage(cfg, archive, probable.random, attempt, probable.calls, channel.State(), position.value);
    outcome := GetMetadataAndFormat(cfg, archive, channel, probable, attempt, position.value);
  }

  /** The rest of one pass of `tryToGet`, from `getMetadata` on, once the channel holds the
      sampled position and the item found there. */
  method GetMetadataAndFormat(cfg: Config, archive: Archive, channel: Channel, probable: Probable, attempt: nat,
                              p: Position)
    returns (outcome: Result<ArchiveResult>)
    requires channel.Holds(cfg) && channel.page == p.page && channel.row == Some(p.row)
    modifies channel, probable
    ensures Step(outcome, probable.calls, channel.State())
         == MetadataStage(cfg, archive, probable.random, attempt, old(probable.calls), old(channel.State()), p)
  {
    ghost var goal := MetadataStage(cfg, archive, probable.random, attempt, probable.calls, channel.State(), p);
    // getMetadata, then Collect 'dir', 'files' and 'workable_servers'
    var metadataURL := MetadataRequest(channel.item, Position(channel.page, channel.row.value));
    if metadataURL.Err? {
      return Err(metadataURL.error);
    }
    var metadataBody := archive.metadata(attempt, metadataURL.value);
    if metadataBody.Err? {
      return Err(metadataBody.error);
    }
    var md := metadataBody.value;
    channel.dir, channel.files, channel.workableServers := Some(md.dir), Some(md.files), Some(md.workableServers);
    assert goal == FilterStage(cfg, probable.random, probable.calls, channel.State(), channel.item.value, md);
    outcome := FilterAndFormat(cfg, channel, probable, channel.item.value, md);
  }

  /** The last two stages of `tryToGet`, once the channel holds the metadata body's fields. */
  method FilterAndFormat(cfg: Config, channel: Channel, probable: Probable, it: Item, md: Metadata)
    returns (outcome: Result<ArchiveResult>)
    requires channel.Holds(cfg) && channel.files == Some(md.files)
    requires channel.dir == Some(md.dir) && channel.workableServers == Some(md.workableServers)
    modifies channel, probable
    ensures Step(outcome, probable.calls, channel.State())
         == FilterStage(cfg, probable.random, old(probable.calls), old(channel.State()), it, md)
  {
    // filterFiles, then Collect 'files'
    var usable := FilterFiles(channel.files.value, it.identifier, Filter(cfg));
    if usable.Err? {
      return Err(usable.error);
    }
    channel.files := Some(Lift(usable.value));
    // formatResult
    var result := FormatResult(channel.collection, it, channel.dir.value, usable.value,
                               channel.workableServers.value, probable);
    return Ok(result);
  }

  // ---------------------------------------------------------------- the retry loop

  /** The number of attempts a pipeline that keeps failing makes. */
  function MaxAttempts(cfg: Config): nat {
    if cfg.maxTries > 1 then cfg.maxTries else 1
  }

  /** The outcomes of the attempts numbered `tries` onwards: after each failing attempt the
      counter grows by one, and another attempt follows only while it is below `maxTries`. */
  function Run(cfg: Config, archive: Archive, random: nat -> Draw, tries: nat, calls: nat,
               s: ChannelState): (trace: seq<Result<ArchiveResult>>)
    ensures |trace| >= 1
    decreases if cfg.maxTries > tries then cfg.maxTries - tries else 0
  {
    var step := AttemptOf(cfg, archive, random, tries, calls, s);
    if step.outcome.Err? && tries + 1 < cfg.maxTries then
      [step.outcome] + Run(cfg, archive, random, tries + 1, step.calls, step.state)
    else [step.outcome]
  }

  /** The outcomes of all attempts of one invocation, in order. */
  function Trace(cfg: Config, archive: Archive, random: nat -> Draw): (trace: seq<Result<ArchiveResult>>)
    ensures |trace| >= 1
  {
    Run(cfg, archive, random, 0, 0, InitialState)
  }

  /** One more attempt extends the trace seen so far by its outcome. */
  lemma RunAdvances(cfg: Config, archive: Archive, random: nat -> Draw, tries: nat, calls: nat,
                    s: ChannelState, step: Step, trace: seq<Result<ArchiveResult>>, full: seq<Result<ArchiveResult>>)
    requires step == AttemptOf(cfg, archive, random, tries, calls, s)
    requires trace + Run(cfg, archive, random, tries, calls, s) == full
    ensures step.outcome.Err? && tries + 1 < cfg.maxTries ==>
      (trace + [step.outcome]) + Run(cfg, archive, random, tries + 1, step.calls, step.state) == full
    ensures !(step.outcome.Err? && tries + 1 < cfg.maxTries) ==> trace + [step.outcome] == full
  {
    var rest := Run(cfg, archive, random, tries + 1, step.calls, step.state);
    if step.outcome.Err? && tries + 1 < cfg.maxTries {
      assert (trace + [step.outcome]) + rest == trace + ([step.outcome] + rest);
    }
  }

  function Last<T>(xs: seq<T>): T
    requires |xs| > 0
  {
    xs[|xs| - 1]
  }

  /** `randomInternetArchive(opts, allDone)`: what reaches `allDone` is the outcome of the last
      attempt. */
  method RandomInternetArchive(cfg: Config, archive: Archive, random: nat -> Draw)
    returns (outcome: Result<ArchiveResult>)
    ensures outcome == Last(Trace(cfg, archive, random))
  {
    var probable := new Probable(random);
    var channel := new Channel(cfg);
    var tries: nat := 0;
    var finished := false;
    ghost var full := Trace(cfg, archive, random);
    ghost var trace: seq<Result<ArchiveResult>> := [];
    outcome := Err("");
    while !finished
      invariant channel.Holds(cfg) && probable.random == random
      invariant |trace| == tries
      invariant !finished ==> tries == 0 || tries < cfg.maxTries
      invariant !finished ==> trace + Run(cfg, archive, random, tries, probable.calls, channel.State()) == full
      invariant finished ==> trace == full && outcome == Last(trace)
      decreases !finished, if cfg.maxTries > tries then cfg.maxTries - tries else 0
    {
      ghost var calls, state := probable.calls, channel.State();
      outcome := TryToGet(cfg, archive, channel, probable, tries);
      RunAdvances(cfg, archive, random, tries, calls, state, Step(outcome, probable.calls, channel.State()), trace, full);
      // decideWithResult
      tries := tries + 1;
      trace := trace + [outcome];
      if outcome.Err? && tries < cfg.maxTries {
        // callNextTick(tryToGet)
      } else {
        finished := true;
      }
    }
  }

  // ---------------------------------------------------------------- properties of the retry policy

  lemma {:induction false} RunShape(cfg: Config, archive: Archive, random: nat -> Draw, tries: nat, calls: nat,
                                    s: ChannelState)
    requires tries < MaxAttempts(cfg)
    ensures var trace := Run(cfg, archive, random, tries, calls, s);
      |trace| <= MaxAttempts(cfg) - tries
      && (forall i :: 0 <= i < |trace| - 1 ==> trace[i].Err?)
      && (Last(trace).Err? ==> |trace| == MaxAttempts(cfg) - tries)
    decreases MaxAttempts(cfg) - tries
  {
    var step := AttemptOf(cfg, archive, random, tries, calls, s);
    RunStep(cfg, archive, random, tries, calls, s, step);
    var trace := Run(cfg, archive, random, tries, calls, s);
    if step.outcome.Err? && tries + 1 < cfg.maxTries {
      var rest := Run(cfg, archive, random, tries + 1, step.calls, step.state);
      RunShape(cfg, archive, random, tries + 1, step.calls, step.state);
      assert trace == [step.outcome] + rest;
      assert Last(trace) == Last(rest);
      forall i | 0 <= i < |trace| - 1 ensures trace[i].Err? {
        if i > 0 {
          assert trace[i] == rest[i - 1];
        }
      }
    }
  }

  lemma RunStep(cfg: Config, archive: Archive, random: nat -> Draw, tries: nat, calls: nat,
                s: ChannelState, step: Step)
    requires step == AttemptOf(cfg, archive, random, tries, calls, s)
    ensures step.outcome.Err? && tries + 1 < cfg.maxTries ==>
      Run(cfg, archive, random, tries, calls, s) == [step.outcome] + Run(cfg, archive, random, tries + 1, step.calls, step.state)
    ensures !(step.outcome.Err? && tries + 1 < cfg.maxTries) ==>
      Run(cfg, archive, random, tries, calls, s) == [step.outcome]
  {
  }

  /** The retry policy: between one and max(maxTries, 1) attempts; every attempt but the last
      failed; and the invocation fails only after exactly max(maxTries, 1) failing attempts, so
      a success is reported at once and a failure is retried while attempts remain. */
  lemma TraceShape(cfg: Config, archive: Archive, random: nat -> Draw)
    ensures var trace := Trace(cfg, archive, random);
      1 <= |trace| <= MaxAttempts(cfg)
      && (forall i :: 0 <= i < |trace| - 1 ==> trace[i].Err?)
      && (Last(trace).Err? ==> |trace| == MaxAttempts(cfg))
  {
    RunShape(cfg, archive, random, 0, 0, InitialState);
  }

  lemma {:induction false} RunAlwaysFailing(cfg: Config, archive: Archive, random: nat -> Draw, tries: nat, calls: nat,
                                            s: ChannelState)
    requires forall a: nat, url: string :: archive.count(a, url).Err?
    requires tries < MaxAttempts(cfg)
    ensures var trace := Run(cfg, archive, random, tries, calls, s);
      |trace| == MaxAttempts(cfg) - tries
      && Last(trace) == Err(archive.count(MaxAttempts(cfg) - 1, CountURL(cfg.proxyBaseURL, Dict(cfg), cfg.query)).error)
    decreases MaxAttempts(cfg) - tries
  {
    var step := AttemptOf(cfg, archive, random, tries, calls, s);
    assert step.outcome == Err(archive.count(tries, CountURL(cfg.proxyBaseURL, Dict(cfg), cfg.query)).error);
    RunStep(cfg, archive, random, tries, calls, s, step);
    if tries + 1 < cfg.maxTries {
      RunAlwaysFailing(cfg, archive, random, tries + 1, step.calls, step.state);
    }
  }

  /** When every count request fails, the invocation makes exactly max(maxTries, 1) attempts
      and reports the error of the last one unchanged. */
  lemma AlwaysFailingTransport(cfg: Config, archive: Archive, random: nat -> Draw)
    requires forall a: nat, url: string :: archive.count(a, url).Err?
    ensures var trace := Trace(cfg, archive, random);
      |trace| == MaxAttempts(cfg)
      && Last(trace) == Err(archive.count(MaxAttempts(cfg) - 1, CountURL(cfg.proxyBaseURL, Dict(cfg), cfg.query)).error)
  {
    RunAlwaysFailing(cfg, archive, random, 0, 0, InitialState);
  }

  lemma {:induction false} RunNoItems(cfg: Config, archive: Archive, random: nat -> Draw, tries: nat, calls: nat,
                                      s: ChannelState)
    requires forall a: nat, url: string :: archive.count(a, url).Ok? && archive.count(a, url).value < 1
    requires tries < MaxAttempts(cfg)
    ensures var trace := Run(cfg, archive, random, tries, calls, s);
      |trace| == MaxAttempts(cfg) - tries && Last(trace) == Err("No items found.")
    decreases MaxAttempts(cfg) - tries
  {
    var step := AttemptOf(cfg, archive, random, tries, calls, s);
    assert step.outcome == Err("No items found.");
    RunStep(cfg, archive, random, tries, calls, s, step);
    if tries + 1 < cfg.maxTries {
      RunNoItems(cfg, archive, random, tries + 1, step.calls, step.state);
    }
  }

  /** A query that matches nothing fails every attempt, whatever maxTries is, and reports
      exactly "No items found.". */
  lemma NoItemsFound(cfg: Config, archive: Archive, random: nat -> Draw)
    requires forall a: nat, url: string :: archive.count(a, url).Ok? && archive.count(a, url).value < 1
    ensures var trace := Trace(cfg, archive, random);
      |trace| == MaxAttempts(cfg) && Last(trace) == Err("No items found.")
  {
    RunNoItems(cfg, archive, random, 0, 0, InitialState);
  }

  /** The outcome of an attempt and its use of `random()` do not depend on what earlier attempts
      left in the shared channel, so reusing one record behaves as a fresh record per attempt. */
  lemma AttemptIgnoresStaleChannel(cfg: Config, archive: Archive, random: nat -> Draw, attempt: nat, calls: nat,
                                   s1: ChannelState, s2: ChannelState)
    ensures AttemptOf(cfg, archive, random, attempt, calls, s1).outcome == AttemptOf(cfg, archive, random, attempt, calls, s2).outcome
    ensures AttemptOf(cfg, archive, random, attempt, calls, s1).calls == AttemptOf(cfg, archive, random, attempt, calls, s2).calls
  {
  }

  lemma {:induction false} RunIgnoresStaleChannel(cfg: Config, archive: Archive, random: nat -> Draw, tries: nat,
                                                  calls: nat, s1: ChannelState, s2: ChannelState)
    ensures Run(cfg, archive, random, tries, calls, s1) == Run(cfg, archive, random, tries, calls, s2)
    decreases if cfg.maxTries > tries then cfg.maxTries - tries else 0
  {
    var step1 := AttemptOf(cfg, archive, random, tries, calls, s1);
    var step2 := AttemptOf(cfg, archive, random, tries, calls, s2);
    AttemptIgnoresStaleChannel(cfg, archive, random, tries, calls, s1, s2);
    RunStep(cfg, archive, random, tries, calls, s1, step1);
    RunStep(cfg, archive, random, tries, calls, s2, step2);
    if step1.outcome.Err? && tries + 1 < cfg.maxTries {
      RunIgnoresStaleChannel(cfg, archive, random, tries + 1, step1.calls, step1.state, step2.state);
    }
  }

  /** Running every attempt on a fresh channel would give the same outcomes as the shared one. */
  lemma SharedChannelIsUnobservable(cfg: Config, archive: Archive, random: nat -> Draw, s: ChannelState)
    ensures Run(cfg, archive, random, 0, 0, s) == Trace(cfg, archive, random)
  {
    RunIgnoresStaleChannel(cfg, archive, random, 0, 0, s, InitialState);
  }

  // ---------------------------------------------------------------- properties of a success

  /** The result names a file the filter accepts: same size and format, and the URL ends
      with `/` and that file's name. */
  ghost predicate FromUsableFile(filter: FileFilter, r: ArchiveResult) {
    exists f: File :: FileIsUsable(filter, f) && r.size == f.size && r.format == f.format
                      && EndsWith(r.url, "/" + f.name)
  }

  lemma EndsWithAppend(a: string, b: string)
    ensures EndsWith(a + b, b)
  {
    assert (a + b)[|a + b| - |b|..] == b;
  }

  lemma AttemptResultIsUsable(cfg: Config, archive: Archive, random: nat -> Draw, attempt: nat, calls: nat,
                              s: ChannelState)
    ensures var o := AttemptOf(cfg, archive, random, attempt, calls, s).outcome;
      o.Ok? ==> FromUsableFile(Filter(cfg), o.value)
  {
    var o := AttemptOf(cfg, archive, random, attempt, calls, s).outcome;
    if o.Ok? {
      var total := archive.count(attempt, CountURL(cfg.proxyBaseURL, Dict(cfg), cfg.query)).value;
      var p := RandomPosition(total, random(calls), random(calls + 1)).value;
      var url := CreateSearchURL(cfg.proxyBaseURL, Dict(cfg), SearchFields, PageSize, p.page, cfg.query);
      var docs := archive.search(attempt, url).value;
      var it := GetItem(docs, p.row).value;
      var md := archive.metadata(attempt, MetadataURL(it.identifier)).value;
      var usable := FilterFiles(md.files, it.identifier, Filter(cfg)).value;
      var f := Pick(usable, random(calls + 3)).value;
      var server := Pick(md.workableServers, random(calls + 2));
      assert o.value == FormatResultOf(cfg.collection, it, md.dir, usable, md.workableServers,
                                       random(calls + 2), random(calls + 3));
      EndsWithAppend("https://" + Render(server) + md.dir, "/" + f.name);
      assert ("https://" + Render(server) + md.dir) + ("/" + f.name) == o.value.url;
    }
  }

  lemma {:induction false} RunResultIsUsable(cfg: Config, archive: Archive, random: nat -> Draw, tries: nat,
                                             calls: nat, s: ChannelState)
    ensures var r := Last(Run(cfg, archive, random, tries, calls, s));
      r.Ok? ==> FromUsableFile(Filter(cfg), r.value)
    decreases if cfg.maxTries > tries then cfg.maxTries - tries else 0
  {
    var step := AttemptOf(cfg, archive, random, tries, calls, s);
    RunStep(cfg, archive, random, tries, calls, s, step);
    if step.outcome.Err? && tries + 1 < cfg.maxTries {
      var rest := Run(cfg, archive, random, tries + 1, step.calls, step.state);
      RunResultIsUsable(cfg, archive, random, tries + 1, step.calls, step.state);
      assert Last([step.outcome] + rest) == Last(rest);
    } else {
      AttemptResultIsUsable(cfg, archive, random, tries, calls, s);
    }
  }

  /** A successful invocation returns a file that passes the filter. */
  lemma SuccessIsUsable(cfg: Config, archive: Archive, random: nat -> Draw)
    ensures var r := Last(Trace(cfg, archive, random));
      r.Ok? ==> FromUsableFile(Filter(cfg), r.value)
  {
    RunResultIsUsable(cfg, archive, random, 0, 0, InitialState);
  }

  /** With the intended metadata stage, an empty search page is an ordinary error: the first
      attempt fails with the sampling-miss message for the sampled position and, when maxTries
      allows, a second attempt follows. */
  lemma EmptyPageIsRetried(cfg: Config, archive: Archive, random: nat -> Draw)
    requires archive.count(0, CountURL(cfg.proxyBaseURL, Dict(cfg), cfg.query)).Ok?
    requires archive.count(0, CountURL(cfg.proxyBaseURL, Dict(cfg), cfg.query)).value >= 1
    requires forall url: string :: archive.search(0, url) == Ok([])
    requires cfg.maxTries > 1
    ensures var total := archive.count(0, CountURL(cfg.proxyBaseURL, Dict(cfg), cfg.query)).value;
      var trace := Trace(cfg, archive, random);
      |trace| > 1 && trace[0] == Err(SamplingMiss(RandomPosition(total, random(0), random(1)).value))
  {
    var total := archive.count(0, CountURL(cfg.proxyBaseURL, Dict(cfg), cfg.query)).value;
    var p := RandomPosition(total, random(0), random(1)).value;
    var step := AttemptOf(cfg, archive, random, 0, 0, InitialState);
    assert step.outcome == Err(SamplingMiss(p)) by {
      var url := CreateSearchURL(cfg.proxyBaseURL, Dict(cfg), SearchFields, PageSize, p.page, cfg.query);
      assert archive.search(0, url) == Ok([]);
      assert GetItem([], p.row) == None;
    }
    RunStep(cfg, archive, random, 0, 0, InitialState, step);
  }
}
