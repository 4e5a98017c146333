/**
 * The command-line pipeline of index.js: `ytdl.getInfo(url)`, then
 * `chooseFormat`, then `findDevice`, then `playVideo`, with one `catch`
 * that turns any rejection into exit status -1 and a final
 * `.then(process.exit)`.
 *
 * The libraries the pipeline calls are not modelled; what they answer is
 * an input (`World`): the settlement of `ytdl.getInfo`, the value
 * `ytdl.chooseFormat` returns or the error it throws, the devices the
 * bonjour browser reports in order, and the reply of `AirPlay.play`.
 * A promise that never settles is `Pending`; the run then ends `Hung`.
 */
module AirTube {
  import opened Wrappers
  import opened Bonjour

  /** The port `--port` falls back to when it is not given. */
  const DefaultPort := 7000

  /** A JavaScript string value's truthiness: present and not empty. */
  predicate Truthy(s: Option<string>) {
    s.Some? && s.value != []
  }

  /** The parsed command line: the first argument and the two options. */
  datatype Options = Options(url: Option<string>, device: Option<string>, port: Option<string>)

  /**
   * The value of `program.port`: the number 7000 by default, otherwise the
   * text given on the command line (commander does not convert it).
   */
  datatype PortValue = PortNumber(number: int) | PortText(text: string)

  function ProgramPort(port: Option<string>): (p: PortValue)
    ensures port.None? <==> p == PortNumber(DefaultPort)
    ensures port.Some? ==> p == PortText(port.value)
  {
    match port
    case None => PortNumber(DefaultPort)
    case Some(text) => PortText(text)
  }

  /** Why a promise was rejected. */
  datatype Reason =
    | Undefined             // reject() without an argument
    | Raised(message: string) // an Error from a library, with its message
    | TitleTypeError        // reading `title` of a missing `info.videoDetails`

  /** The state a promise ends in. */
  datatype Settlement<T> = Resolved(value: T) | Rejected(reason: Reason) | Pending

  /** The fields of a ytdl format that the pipeline reads. */
  datatype Format = Format(url: Option<string>, qualityLabel: Option<string>)

  /** The fields of the ytdl video metadata that the pipeline reads. */
  datatype VideoDetails = VideoDetails(title: Option<string>)
  datatype Info = Info(formats: Option<seq<Format>>, videoDetails: Option<VideoDetails>)

  /** What `ytdl.chooseFormat(info.formats, {filter: 'video'})` does. */
  datatype FormatPick = Picked(format: Option<Format>) | PickThrew(message: string)

  /** How the device answers `airplayDevice.play(url, callback)`. */
  datatype PlayReply =
    | Played                 // the callback without an error
    | PlayFailed(message: string) // the callback with an error
    | NoReply                // the callback is never called

  /** What the library calls answer during one run. */
  datatype World = World(
    info: Settlement<Option<Info>>, // ytdl.getInfo(url)
    pick: FormatPick,               // ytdl.chooseFormat(...)
    feed: seq<Device>,              // bonjour 'up' events, in order
    reply: PlayReply)               // airplayDevice.play(...)

  /** The result of `chooseFormat`: `{title, url}`. */
  datatype VideoInfo = VideoInfo(title: Option<string>, url: string)

  /** The result of `findDevice`: `{deviceHost, devicePort, videoInfo}`. */
  datatype Target = Target(deviceHost: string, devicePort: PortValue, videoInfo: VideoInfo)

  /** How the process ends. */
  datatype Terminal =
    | Help                                 // no url: commander prints the usage and exits
    | Exited(code: int, shown: Option<Reason>) // process.exit(code), after the error line if any
    | Hung                                 // some promise never settles

  /** The library calls and the final console line, in the order they happen. */
  datatype Event =
    | FetchInfo(url: string)                       // ytdl.getInfo(url)
    | PickFormat                                   // ytdl.chooseFormat(info.formats, ...)
    | StartDiscovery                               // bonjour.find({type: 'airplay'}, ...)
    | StopDiscovery                                // browser.stop()
    | Connect(host: string, port: PortValue)       // new AirPlay(deviceHost, devicePort)
    | Play(url: string)                            // airplayDevice.play(videoInfo.url, ...)
    | Announce(text: string)                       // logSuccess(logPlay, logPlay.text)

  /**
   * `chooseFormat(info)`: rejects without a reason when the info or its
   * formats are missing, passes on what `ytdl.chooseFormat` throws, rejects
   * without a reason when no format or no format url comes back, fails
   * with a TypeError when the info has no `videoDetails`, and otherwise
   * yields the title and the format's url.
   */
  function ChooseFormat(info: Option<Info>, pick: FormatPick): (s: Settlement<VideoInfo>)
    ensures !s.Pending?
    ensures s.Rejected? && s.reason.Raised? <==> info.Some? && info.value.formats.Some? && pick.PickThrew?
    ensures s.Resolved? ==> Truthy(Some(s.value.url))
  {
    if info.None? || info.value.formats.None? then Rejected(Undefined)
    else match pick
      case PickThrew(message) => Rejected(Raised(message))
      case Picked(format) =>
        if format.None? || !Truthy(format.value.url) then Rejected(Undefined)
        else if info.value.videoDetails.None? then Rejected(TitleTypeError)
        else Resolved(VideoInfo(info.value.videoDetails.value.title, format.value.url.value))
  }

  /**
   * `findDevice(videoInfo)`: the `--device` option wins, with the
   * program's port; otherwise the first device discovered. Without any
   * discovery event the promise never settles.
   */
  function FindDevice(device: Option<string>, port: PortValue, feed: seq<Device>, v: VideoInfo): (s: Settlement<Target>)
    ensures !s.Rejected?
    ensures s.Pending? <==> !Truthy(device) && feed == []
    ensures s.Resolved? ==> s.value.videoInfo == v
    ensures s.Resolved? && !Truthy(device) ==> s.value.deviceHost == feed[0].host
  {
    if Truthy(device) then Resolved(Target(device.value, port, v))
    else if feed == [] then Pending
    else Resolved(Target(feed[0].host, PortNumber(feed[0].port), v))
  }

  /** `playVideo(target)`: resolves with 0 when the device plays, rejects with its error otherwise. */
  function PlayVideo(reply: PlayReply): (s: Settlement<int>)
    ensures s.Resolved? ==> s.value == 0
    ensures s.Rejected? <==> reply.PlayFailed?
    ensures s.Pending? <==> reply == NoReply
  {
    match reply
    case Played => Resolved(0)
    case PlayFailed(message) => Rejected(Raised(message))
    case NoReply => Pending
  }

  /** The text of the final spinner: the title when there is one (index.js line 171). */
  function PlayText(title: Option<string>): (text: string)
    ensures |text| >= 11 && text[..8] == "Playing " && text[|text| - 3..] == "..."
  {
    if Truthy(title) then "Playing \"" + title.value + "\"..." else "Playing YouTube video..."
  }

  /** `ytdl.getInfo(url).then(chooseFormat)`. */
  function SourceStage(w: World): Settlement<VideoInfo> {
    match w.info
    case Resolved(info) => ChooseFormat(info, w.pick)
    case Rejected(r) => Rejected(r)
    case Pending => Pending
  }

  /** `... .then(findDevice)`: skipped once an earlier stage has failed or hangs. */
  function DeviceStage(opts: Options, w: World): Settlement<Target> {
    match SourceStage(w)
    case Resolved(v) => FindDevice(opts.device, ProgramPort(opts.port), w.feed, v)
    case Rejected(r) => Rejected(r)
    case Pending => Pending
  }

  /** `... .then(playVideo)`: skipped once an earlier stage has failed or hangs. */
  function DispatchStage(opts: Options, w: World): Settlement<int> {
    match DeviceStage(opts, w)
    case Resolved(_) => PlayVideo(w.reply)
    case Rejected(r) => Rejected(r)
    case Pending => Pending
  }

  /** What the `catch` prints: the error's message, unless the reason is falsy. */
  function Shown(r: Reason): Option<Reason> {
    if r == Undefined then None else Some(r)
  }

  /** The end of the whole chain, `catch` and `process.exit` included. */
  function Outcome(opts: Options, w: World): Terminal {
    if !Truthy(opts.url) then Help
    else match DispatchStage(opts, w)
      case Resolved(code) => Exited(code, None)
      case Rejected(r) => Exited(-1, Shown(r))
      case Pending => Hung
  }

  /** The calls the source stage makes once the info has arrived. */
  function SourceEvents(w: World): seq<Event> {
    match w.info
    case Resolved(info) => if info.Some? && info.value.formats.Some? then [PickFormat] else []
    case _ => []
  }

  /** The calls the device stage makes, if it runs. */
  function DeviceEvents(opts: Options, w: World): seq<Event> {
    if !SourceStage(w).Resolved? || Truthy(opts.device) then []
    else if w.feed == [] then [StartDiscovery]
    else [StartDiscovery, StopDiscovery]
  }

  /** The calls the dispatch stage makes, if it runs, and the final console line. */
  function DispatchEvents(opts: Options, w: World): seq<Event> {
    match DeviceStage(opts, w)
    case Resolved(t) => DispatchCalls(t, w.reply)
    case _ => []
  }

  /** `playVideo(target)`'s calls and, when the device plays, the final console line. */
  function DispatchCalls(t: Target, reply: PlayReply): seq<Event> {
    [Connect(t.deviceHost, t.devicePort), Play(t.videoInfo.url)]
    + (if reply == Played then [Announce(PlayText(t.videoInfo.title))] else [])
  }

  /** Everything the run calls, in order. */
  function Trace(opts: Options, w: World): seq<Event> {
    if !Truthy(opts.url) then []
    else [FetchInfo(opts.url.value)] + SourceEvents(w) + DeviceEvents(opts, w) + DispatchEvents(opts, w)
  }

  /**
   * The script run top to bottom: the url check, then each stage of the
   * chain in turn (a stage whose predecessor rejected or never settled is
   * skipped and passes that on), then the `catch` and `process.exit`.
   */
  method Run(opts: Options, w: World) returns (outcome: Terminal, events: seq<Event>)
    ensures outcome == Outcome(opts, w)
    ensures events == Trace(opts, w)
  {
    if !Truthy(opts.url) {
      // program.help() prints the usage and ends the process
      return Help, [];
    }
    events := [FetchInfo(opts.url.value)];

    // ytdl.getInfo(url).then(chooseFormat)
    var source: Settlement<VideoInfo>;
    match w.info {
      case Resolved(info) =>
        if info.Some? && info.value.formats.Some? {
          events := events + [PickFormat];
        }
        source := ChooseFormat(info, w.pick);
      case Rejected(r) =>
        source := Rejected(r);
      case Pending =>
        source := Pending;
    }
    assert source == SourceStage(w) && events == [FetchInfo(opts.url.value)] + SourceEvents(w);

    // .then(findDevice)
    var located: Settlement<Target>;
    match source {
      case Resolved(v) =>
        if !Truthy(opts.device) {
          events := events + [StartDiscovery];
          if w.feed != [] {
            // the handler of the first 'up' event stops the browser
            events := events + [StopDiscovery];
          }
        }
        located := FindDevice(opts.device, ProgramPort(opts.port), w.feed, v);
      case Rejected(r) =>
        located := Rejected(r);
      case Pending =>
        located := Pending;
    }
    assert located == DeviceStage(opts, w);
    assert events == [FetchInfo(opts.url.value)] + SourceEvents(w) + DeviceEvents(opts, w);

    // .then(playVideo)
    var dispatched: Settlement<int>;
    match located {
      case Resolved(t) =>
        events := events + [Connect(t.deviceHost, t.devicePort), Play(t.videoInfo.url)];
        dispatched := PlayVideo(w.reply);
        if dispatched.Resolved? {
          events := events + [Announce(PlayText(t.videoInfo.title))];
        }
      case Rejected(r) =>
        dispatched := Rejected(r);
      case Pending =>
        dispatched := Pending;
    }
    assert dispatched == DispatchStage(opts, w);

    // .catch(err => -1).then(process.exit)
    match dispatched {
      case Resolved(code) =>
        outcome := Exited(code, None);
      case Rejected(r) =>
        outcome := Exited(-1, Shown(r));
      case Pending =>
        outcome := Hung;
    }
  }

  /** Without a url the usage is printed and nothing else happens. */
  lemma MissingUrlShowsHelp(opts: Options, w: World)
    requires !Truthy(opts.url)
    ensures Outcome(opts, w) == Help && Trace(opts, w) == []
  {
  }

  /**
   * `chooseFormat` resolves exactly when the info, its formats, the chosen
   * format, its url and the video details are all there, and then with
   * the title and the url of that format.
   */
  lemma ChooseFormatResolves(info: Option<Info>, pick: FormatPick)
    ensures ChooseFormat(info, pick).Resolved? <==>
            info.Some? && info.value.formats.Some? && info.value.videoDetails.Some?
            && pick.Picked? && pick.format.Some? && Truthy(pick.format.value.url)
    ensures ChooseFormat(info, pick).Resolved? ==>
              ChooseFormat(info, pick).value ==
              VideoInfo(info.value.videoDetails.value.title, pick.format.value.url.value)
  {
  }

  /**
   * `chooseFormat` rejects with no reason (so the `catch` prints nothing)
   * exactly when the info or its formats are missing, or the chosen format
   * or its url is.
   */
  lemma ChooseFormatSilentRejection(info: Option<Info>, pick: FormatPick)
    ensures ChooseFormat(info, pick) == Rejected(Undefined) <==>
            info.None? || info.value.formats.None?
            || (pick.Picked? && (pick.format.None? || !Truthy(pick.format.value.url)))
  {
  }

  /** The stage that fails first decides the outcome: exit status -1 and its reason. */
  lemma SourceFailureSkipsLaterStages(opts: Options, w: World, w': World)
    requires Truthy(opts.url) && SourceStage(w).Rejected?
    requires w'.info == w.info && w'.pick == w.pick
    ensures Outcome(opts, w) == Exited(-1, Shown(SourceStage(w).reason))
    ensures forall e :: e in Trace(opts, w) ==> e.FetchInfo? || e.PickFormat?
    ensures Outcome(opts, w') == Outcome(opts, w) && Trace(opts, w') == Trace(opts, w)
  {
    assert DeviceEvents(opts, w) == [] && DispatchEvents(opts, w) == [];
    assert DeviceEvents(opts, w') == [] && DispatchEvents(opts, w') == [];
  }

  /** A play error fails the run after the device was contacted, and nothing is announced. */
  lemma PlayFailureExits(opts: Options, w: World, message: string)
    requires Truthy(opts.url) && DeviceStage(opts, w).Resolved? && w.reply == PlayFailed(message)
    ensures Outcome(opts, w) == Exited(-1, Some(Raised(message)))
    ensures var t := DeviceStage(opts, w).value;
            Connect(t.deviceHost, t.devicePort) in Trace(opts, w) && Play(t.videoInfo.url) in Trace(opts, w)
    ensures forall text :: Announce(text) !in Trace(opts, w)
  {
    var t := DeviceStage(opts, w).value;
    var pre := [FetchInfo(opts.url.value)] + SourceEvents(w) + DeviceEvents(opts, w);
    assert DispatchEvents(opts, w) == [Connect(t.deviceHost, t.devicePort), Play(t.videoInfo.url)];
    assert Trace(opts, w) == pre + [Connect(t.deviceHost, t.devicePort), Play(t.videoInfo.url)];
    assert forall e :: e in pre ==> e.FetchInfo? || e.PickFormat? || e.StartDiscovery? || e.StopDiscovery?;
  }

  /**
   * `--device` overrides discovery: the device stage resolves with that
   * host and the program's port (7000 unless `--port` is given), the
   * browser is never started, and what it would report does not matter.
   */
  lemma ExplicitDeviceWins(opts: Options, w: World, feed: seq<Device>)
    requires Truthy(opts.device) && SourceStage(w).Resolved?
    ensures DeviceStage(opts, w) == Resolved(Target(opts.device.value, ProgramPort(opts.port), SourceStage(w).value))
    ensures Truthy(opts.url) ==> Connect(opts.device.value, ProgramPort(opts.port)) in Trace(opts, w)
    ensures StartDiscovery !in Trace(opts, w) && StopDiscovery !in Trace(opts, w)
    ensures Outcome(opts, w.(feed := feed)) == Outcome(opts, w)
    ensures Trace(opts, w.(feed := feed)) == Trace(opts, w)
  {
    var w' := w.(feed := feed);
    assert SourceStage(w') == SourceStage(w) && SourceEvents(w') == SourceEvents(w);
    assert DeviceEvents(opts, w) == [] && DeviceEvents(opts, w') == [];
    assert DeviceStage(opts, w') == DeviceStage(opts, w);
    if Truthy(opts.url) {
      var pre := [FetchInfo(opts.url.value)] + SourceEvents(w);
      assert Trace(opts, w) == pre + DispatchEvents(opts, w);
      assert DispatchEvents(opts, w)[0] == Connect(opts.device.value, ProgramPort(opts.port));
      assert forall e :: e in pre ==> e.FetchInfo? || e.PickFormat?;
    }
  }

  /**
   * Without `--device`, the first device the browser reports is used with
   * its own port, the browser is stopped, and devices reported after it
   * change nothing.
   */
  lemma FirstDiscoveredWins(opts: Options, w: World, rest: seq<Device>)
    requires !Truthy(opts.device) && SourceStage(w).Resolved? && w.feed != []
    ensures DeviceStage(opts, w) == Resolved(Target(w.feed[0].host, PortNumber(w.feed[0].port), SourceStage(w).value))
    ensures DeviceEvents(opts, w) == [StartDiscovery, StopDiscovery]
    ensures Outcome(opts, w.(feed := [w.feed[0]] + rest)) == Outcome(opts, w)
    ensures Trace(opts, w.(feed := [w.feed[0]] + rest)) == Trace(opts, w)
  {
    var w' := w.(feed := [w.feed[0]] + rest);
    assert SourceStage(w') == SourceStage(w) && SourceEvents(w') == SourceEvents(w);
    assert DeviceStage(opts, w') == DeviceStage(opts, w);
  }

  /** Without `--device` and without any device reported, the run never ends. */
  lemma NoDeviceFoundHangs(opts: Options, w: World)
    requires Truthy(opts.url) && !Truthy(opts.device) && SourceStage(w).Resolved? && w.feed == []
    ensures Outcome(opts, w) == Hung
    ensures Trace(opts, w)[|Trace(opts, w)| - 1] == StartDiscovery
  {
    assert DispatchEvents(opts, w) == [];
  }

  /**
   * The process exits with 0 exactly when every stage succeeds, with -1
   * exactly when some stage rejects, and with no other status.
   */
  lemma ExitCodes(opts: Options, w: World)
    ensures Outcome(opts, w).Exited? ==> Outcome(opts, w).code == 0 || Outcome(opts, w).code == -1
    ensures Outcome(opts, w) == Exited(0, None) <==>
            Truthy(opts.url) && SourceStage(w).Resolved? && DeviceStage(opts, w).Resolved? && w.reply == Played
    ensures (Outcome(opts, w).Exited? && Outcome(opts, w).code == -1) <==>
            Truthy(opts.url) && DispatchStage(opts, w).Rejected?
    ensures Outcome(opts, w) == Hung <==> Truthy(opts.url) && DispatchStage(opts, w).Pending?
  {
  }

  /** The position of each kind of call in the chain. */
  function Rank(e: Event): nat {
    match e
    case FetchInfo(_) => 0
    case PickFormat => 1
    case StartDiscovery => 2
    case StopDiscovery => 3
    case Connect(_, _) => 4
    case Play(_) => 5
    case Announce(_) => 6
  }

  predicate Ordered(s: seq<Event>) {
    forall i, j :: 0 <= i < j < |s| ==> Rank(s[i]) < Rank(s[j])
  }

  predicate RanksBelow(s: seq<Event>, k: nat) {
    forall i :: 0 <= i < |s| ==> Rank(s[i]) < k
  }

  predicate RanksFrom(s: seq<Event>, k: nat) {
    forall i :: 0 <= i < |s| ==> k <= Rank(s[i])
  }

  /** Two ordered runs of calls, the second ranked after the first, make one. */
  lemma OrderedAppend(a: seq<Event>, b: seq<Event>, k: nat, m: nat)
    requires Ordered(a) && RanksBelow(a, k)
    requires Ordered(b) && RanksFrom(b, k) && RanksBelow(b, m) && k <= m
    ensures Ordered(a + b) && RanksBelow(a + b, m)
  {
    forall i, j | 0 <= i < j < |a + b|
      ensures Rank((a + b)[i]) < Rank((a + b)[j])
    {
      if j < |a| {
        assert (a + b)[i] == a[i] && (a + b)[j] == a[j];
      } else if i < |a| {
        assert (a + b)[i] == a[i] && (a + b)[j] == b[j - |a|];
      } else {
        assert (a + b)[i] == b[i - |a|] && (a + b)[j] == b[j - |a|];
      }
    }
    forall i | 0 <= i < |a + b| ensures Rank((a + b)[i]) < m {
      if i < |a| {
        assert (a + b)[i] == a[i];
      } else {
        assert (a + b)[i] == b[i - |a|];
      }
    }
  }

  lemma SourceEventsRanked(w: World)
    ensures Ordered(SourceEvents(w)) && RanksFrom(SourceEvents(w), 1) && RanksBelow(SourceEvents(w), 2)
  {
  }

  lemma DeviceEventsRanked(opts: Options, w: World)
    ensures Ordered(DeviceEvents(opts, w)) && RanksFrom(DeviceEvents(opts, w), 2) && RanksBelow(DeviceEvents(opts, w), 4)
  {
  }

  lemma DispatchEventsRanked(opts: Options, w: World)
    ensures Ordered(DispatchEvents(opts, w)) && RanksFrom(DispatchEvents(opts, w), 4) && RanksBelow(DispatchEvents(opts, w), 7)
  {
    if DeviceStage(opts, w).Resolved? {
      DispatchCallsRanked(DeviceStage(opts, w).value, w.reply);
    }
  }

  lemma DispatchCallsRanked(t: Target, reply: PlayReply)
    ensures Ordered(DispatchCalls(t, reply)) && RanksFrom(DispatchCalls(t, reply), 4) && RanksBelow(DispatchCalls(t, reply), 7)
  {
    var connect, play := Connect(t.deviceHost, t.devicePort), Play(t.videoInfo.url);
    if reply == Played {
      assert DispatchCalls(t, reply) == [connect, play, Announce(PlayText(t.videoInfo.title))];
    } else {
      assert DispatchCalls(t, reply) == [connect, play];
    }
  }

  /**
   * Stages run strictly in chain order: every call of the run comes after
   * the calls of the stages before it, and each kind happens at most once.
   */
  lemma StagesInOrder(opts: Options, w: World)
    ensures Ordered(Trace(opts, w))
  {
    if Truthy(opts.url) {
      var a := [FetchInfo(opts.url.value)];
      SourceEventsRanked(w);
      DeviceEventsRanked(opts, w);
      DispatchEventsRanked(opts, w);
      OrderedAppend(a, SourceEvents(w), 1, 2);
      OrderedAppend(a + SourceEvents(w), DeviceEvents(opts, w), 2, 4);
      OrderedAppend(a + SourceEvents(w) + DeviceEvents(opts, w), DispatchEvents(opts, w), 4, 7);
    }
  }

  /**
   * A stage is reached only when every stage before it resolved: the
   * browser starts only after the source stage succeeded, the device is
   * contacted only with the target the device stage resolved with, and
   * the final line appears only on a successful run.
   */
  lemma StagesGated(opts: Options, w: World)
    ensures PickFormat in Trace(opts, w) ==> w.info.Resolved? && w.info.value.Some?
    ensures StartDiscovery in Trace(opts, w) ==> SourceStage(w).Resolved? && !Truthy(opts.device)
    ensures forall h, p :: Connect(h, p) in Trace(opts, w) ==>
              DeviceStage(opts, w).Resolved?
              && DeviceStage(opts, w).value.deviceHost == h && DeviceStage(opts, w).value.devicePort == p
    ensures forall text :: Announce(text) in Trace(opts, w) ==> Outcome(opts, w) == Exited(0, None)
  {
    if Truthy(opts.url) {
      var s, d, p := SourceEvents(w), DeviceEvents(opts, w), DispatchEvents(opts, w);
      var a := [FetchInfo(opts.url.value)];
      assert Trace(opts, w) == a + s + d + p;
      assert forall e :: e in a + s + d + p <==> e in a || e in s || e in d || e in p;
    }
  }

  /** The final line names the video when it has a title. */
  lemma PlayTextNamesTitle(title: Option<string>)
    ensures Truthy(title) ==> PlayText(title)[9..9 + |title.value|] == title.value
    ensures !Truthy(title) ==> PlayText(title) == "Playing YouTube video..."
  {
    if Truthy(title) {
      var text := PlayText(title);
      assert text == "Playing \"" + title.value + "\"...";
      assert |"Playing \""| == 9;
    }
  }

  /**
   * `airtube <url> -d apple-tv.local` on a video with a title: the format
   * is chosen, discovery is skipped, the device is contacted on port 7000
   * and the process exits with 0.
   */
  lemma ExampleExplicitDevice(f: Format)
    requires f.url == Some("https://media.example/v.mp4")
    ensures var opts := Options(Some("https://youtu.be/x"), Some("apple-tv.local"), None);
            var w := World(Resolved(Some(Info(Some([f]), Some(VideoDetails(Some("T")))))), Picked(Some(f)), [], Played);
            Outcome(opts, w) == Exited(0, None)
            && Trace(opts, w) ==
               [FetchInfo("https://youtu.be/x"), PickFormat, Connect("apple-tv.local", PortNumber(7000)),
                Play("https://media.example/v.mp4"), Announce("Playing \"T\"...")]
  {
    var opts := Options(Some("https://youtu.be/x"), Some("apple-tv.local"), None);
    var w := World(Resolved(Some(Info(Some([f]), Some(VideoDetails(Some("T")))))), Picked(Some(f)), [], Played);
    var v := VideoInfo(Some("T"), "https://media.example/v.mp4");
    assert SourceStage(w) == Resolved(v);
    assert DeviceStage(opts, w) == Resolved(Target("apple-tv.local", PortNumber(7000), v));
    assert SourceEvents(w) == [PickFormat] && DeviceEvents(opts, w) == [];
    assert DispatchEvents(opts, w) ==
           [Connect("apple-tv.local", PortNumber(7000)), Play("https://media.example/v.mp4"), Announce(PlayText(Some("T")))];
    assert PlayText(Some("T")) == "Playing \"T\"...";
    assert Outcome(opts, w) == Exited(0, None);
  }
}
