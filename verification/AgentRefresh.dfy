/**
 The agent's side of configuration: two tasks (poll and websocket) refresh one shared config and one
 saved file. A save truncates the file and then writes through its own descriptor, with no lock, so two
 saves can overlap byte by byte; a save may fail at any point, and the process may crash and restart.

 Opening with truncation and each single write are atomic steps.
 */
module AgentRefresh {
  import opened Common
  import opened RuntimeConfigs
  import Fnv

  type Bytes = Fnv.Bytes

  /** The JSON library: a config's text, and what a text decodes to. */
  datatype Codec = Codec(text: RuntimeConfig -> Bytes, parse: Bytes -> Option<RuntimeConfig>)

  /** A text decodes to its config; followed by the closing end of a longer text it decodes to nothing. */
  ghost predicate Lawful(codec: Codec) {
    && (forall c :: codec.parse(codec.text(c)) == Some(c))
    && forall c, d :: |codec.text(c)| < |codec.text(d)| ==> codec.parse(Mixed(codec.text(c), codec.text(d))) == None
  }

  /** A short text written over a longer one. */
  function Mixed(short: Bytes, long: Bytes): Bytes
    requires |short| <= |long|
  {
    short + long[|short|..]
  }

  datatype TaskName = Poll | Websocket

  /** How far a task's refresh has come; the config it carries passed validation. */
  datatype Refresh =
    | Resting
    | Saving(config: RuntimeConfig)
    | Writing(config: RuntimeConfig, written: nat)
    | Applying(config: RuntimeConfig)

  datatype Agent =
    | Stopped(file: Option<Bytes>)
    | Running(shared: RuntimeConfig, file: Option<Bytes>, tasks: map<TaskName, Refresh>)

  datatype Event =
    | Boot(fallback: RuntimeConfig)
    | Fetched(task: TaskName, response: Option<RuntimeConfig>)
    | SaveOpened(task: TaskName)
    | Wrote(task: TaskName, size: nat)
    | SaveCompleted(task: TaskName)
    | SaveFailed(task: TaskName)
    | Applied(task: TaskName)
    | Crash
    | PowerLoss(left: Option<Bytes>)

  const ALL_RESTING: map<TaskName, Refresh> := map[Poll := Resting, Websocket := Resting]

  /** `load_last_known_config`: a missing, undecodable or invalid file counts as no file. */
  function LoadLastKnown(codec: Codec, file: Option<Bytes>): Option<RuntimeConfig> {
    if file.None? then None
    else
      var config := codec.parse(file.value);
      if config.Some? && Validate(config.value).Ok? then config else None
  }

  function Booted(codec: Codec, file: Option<Bytes>, fallback: RuntimeConfig): Agent {
    // The bootstrap file is validated before anything else, so an invalid fallback stops the start.
    if Validate(fallback).Err? then Stopped(file)
    else
      var saved := LoadLastKnown(codec, file);
      Running(if saved.Some? then saved.value else fallback, file, ALL_RESTING)
  }

  function TaskOf(a: Agent, task: TaskName): Refresh {
    if a.Running? && task in a.tasks then a.tasks[task] else Resting
  }

  function SetTask(a: Agent, task: TaskName, r: Refresh): Agent
    requires a.Running?
  {
    a.(tasks := a.tasks[task := r])
  }

  function BytesOf(file: Option<Bytes>): Bytes {
    if file.Some? then file.value else []
  }

  function Zeros(n: nat): Bytes {
    seq(n, _ => 0)
  }

  /** A write at an offset: bytes after it stay, and a gap before it reads as zeros. */
  function Overwrite(file: Bytes, at: nat, chunk: Bytes): (r: Bytes)
    ensures |r| == if at + |chunk| < |file| then |file| else at + |chunk|
    ensures forall i :: 0 <= i < |r| ==>
              r[i] == if at <= i < at + |chunk| then chunk[i - at] else if i < |file| then file[i] else 0
  {
    var padded := if |file| < at then file + Zeros(at - |file|) else file;
    padded[..at] + chunk + (if at + |chunk| < |file| then file[at + |chunk|..] else [])
  }

  function Step(codec: Codec, a: Agent, e: Event): Agent {
    match e
    case Boot(fallback) => if a.Stopped? then Booted(codec, a.file, fallback) else a
    case Crash => Stopped(a.file)
    case PowerLoss(left) => Stopped(left)
    case Fetched(task, response) =>
      if a.Stopped? || !TaskOf(a, task).Resting? || response.None? || Validate(response.value).Err? then a
      else SetTask(a, task, Saving(response.value))
    case SaveOpened(task) =>
      var r := TaskOf(a, task);
      if !r.Saving? then a else SetTask(a, task, Writing(r.config, 0)).(file := Some([]))
    case Wrote(task, size) =>
      var r := TaskOf(a, task);
      if !r.Writing? || r.written + size > |codec.text(r.config)| then a
      else
        var chunk := codec.text(r.config)[r.written..r.written + size];
        SetTask(a, task, Writing(r.config, r.written + size)).(file := Some(Overwrite(BytesOf(a.file), r.written, chunk)))
    case SaveCompleted(task) =>
      var r := TaskOf(a, task);
      if !r.Writing? || r.written != |codec.text(r.config)| then a else SetTask(a, task, Applying(r.config))
    case SaveFailed(task) =>
      var r := TaskOf(a, task);
      if !r.Saving? && !r.Writing? then a else SetTask(a, task, Applying(r.config))
    case Applied(task) =>
      var r := TaskOf(a, task);
      if !r.Applying? then a else SetTask(a, task, Resting).(shared := r.config)
  }

  function Run(codec: Codec, a: Agent, events: seq<Event>): Agent
    decreases |events|
  {
    if events == [] then a else Run(codec, Step(codec, a, events[0]), events[1..])
  }

  lemma {:induction false} RunConcat(codec: Codec, a: Agent, early: seq<Event>, late: seq<Event>)
    ensures Run(codec, a, early + late) == Run(codec, Run(codec, a, early), late)
    decreases |early|
  {
    if early == [] {
      assert early + late == late;
    } else {
      assert (early + late)[1..] == early[1..] + late;
      RunConcat(codec, Step(codec, a, early[0]), early[1..], late);
    }
  }

  // --------------------------------------------------------- last known good

  predicate CarriesValid(r: Refresh) {
    r.Resting? || Valid(r.config)
  }

  predicate Good(a: Agent) {
    a.Running? ==> Valid(a.shared) && forall t :: t in a.tasks ==> CarriesValid(a.tasks[t])
  }

  lemma {:induction false} RunKeepsGood(codec: Codec, a: Agent, events: seq<Event>)
    requires Good(a)
    ensures Good(Run(codec, a, events))
    decreases |events|
  {
    if events != [] {
      StepKeepsGood(codec, a, events[0]);
      RunKeepsGood(codec, Step(codec, a, events[0]), events[1..]);
    }
  }

  lemma StepKeepsGood(codec: Codec, a: Agent, e: Event)
    requires Good(a)
    ensures Good(Step(codec, a, e))
  {
  }

  /** Seconds slept by each loop that reads the shared config. */
  function Sleeps(c: RuntimeConfig, agentId: Bytes): seq<int> {
    var s := c.settings;
    [s.agent.heartbeatIntervalSeconds, JitteredInterval(s.agent.configPollIntervalSeconds, agentId),
     s.storage.intervalSeconds, s.memory.intervalSeconds, s.cpu.intervalSeconds,
     s.network.intervalSeconds, s.diskIo.intervalSeconds, s.tcp.intervalSeconds]
  }

  /**
   Whatever was on disk, whatever the server answered and however saves, overlaps and crashes fell, a
   running agent's shared config is valid, so none of its loops ever spins without sleeping.
   */
  lemma SharedConfigAlwaysValid(codec: Codec, file: Option<Bytes>, events: seq<Event>, agentId: Bytes)
    ensures var a := Run(codec, Stopped(file), events);
            a.Running? ==> Valid(a.shared) && forall i :: 0 <= i < 8 ==> Sleeps(a.shared, agentId)[i] > 0
  {
    RunKeepsGood(codec, Stopped(file), events);
    var a := Run(codec, Stopped(file), events);
    if a.Running? {
      JitterBounds(a.shared.settings.agent.configPollIntervalSeconds, agentId);
    }
  }

  // ------------------------------------------------------------ the saved file

  predicate TouchesFile(e: Event) {
    e.SaveOpened? || e.Wrote? || e.PowerLoss?
  }

  /** Only the opening of a save, its writes and a power loss change the file, across any number of restarts. */
  lemma {:induction false} FileUntouched(codec: Codec, a: Agent, events: seq<Event>)
    requires forall i :: 0 <= i < |events| ==> !TouchesFile(events[i])
    ensures Run(codec, a, events).file == a.file
    decreases |events|
  {
    if events != [] {
      assert !TouchesFile(events[0]);
      assert forall i :: 0 <= i < |events[1..]| ==> events[1..][i] == events[i + 1];
      FileUntouched(codec, Step(codec, a, events[0]), events[1..]);
    }
  }

  /** Nobody else is writing, unless it is the same text. */
  predicate NoOtherText(codec: Codec, a: Agent, task: TaskName, text: Bytes) {
    forall t :: t != task && TaskOf(a, t).Writing? ==> codec.text(TaskOf(a, t).config) == text
  }

  /** Steps after which a save that is under way is still the last one opened, and goes on. */
  predicate Lets(e: Event, task: TaskName) {
    !e.Boot? && !e.Crash? && !e.PowerLoss? && !e.SaveOpened? && e != SaveFailed(task)
  }

  /** The file is no longer than the text and begins with its first `good` bytes. */
  predicate Starts(file: Bytes, text: Bytes, good: nat) {
    good <= |file| <= |text| && forall i :: 0 <= i < good ==> file[i] == text[i]
  }

  /** How much of the text the task has put in place: what it wrote so far, or all of it. */
  function GoodBytes(a: Agent, task: TaskName, text: Bytes): nat {
    if TaskOf(a, task).Writing? then TaskOf(a, task).written else |text|
  }

  predicate Intact(codec: Codec, a: Agent, task: TaskName, text: Bytes) {
    && a.Running? && a.file.Some? && NoOtherText(codec, a, task, text)
    && (TaskOf(a, task).Writing? ==> codec.text(TaskOf(a, task).config) == text)
    && Starts(a.file.value, text, GoodBytes(a, task, text))
  }

  lemma OverwriteSameText(file: Bytes, text: Bytes, good: nat, at: nat, size: nat)
    requires Starts(file, text, good) && at + size <= |text|
    ensures Starts(Overwrite(file, at, text[at..at + size]), text, if at == good then good + size else good)
  {
  }

  /** Only opening a save makes a task a writer, and a writer's config is fixed. */
  lemma NoNewWriter(codec: Codec, a: Agent, e: Event, t: TaskName)
    requires !e.SaveOpened?
    ensures var r := TaskOf(Step(codec, a, e), t);
            r.Writing? ==> TaskOf(a, t).Writing? && TaskOf(a, t).config == r.config
  {
  }

  lemma OthersStay(codec: Codec, a: Agent, e: Event, task: TaskName, text: Bytes)
    requires !e.SaveOpened? && NoOtherText(codec, a, task, text)
    ensures NoOtherText(codec, Step(codec, a, e), task, text)
  {
    var b := Step(codec, a, e);
    forall t | t != task && TaskOf(b, t).Writing?
      ensures codec.text(TaskOf(b, t).config) == text
    {
      NoNewWriter(codec, a, e, t);
    }
  }

  lemma WroteKeepsIntact(codec: Codec, a: Agent, task: TaskName, text: Bytes, writer: TaskName, size: nat)
    requires Intact(codec, a, task, text)
    ensures Intact(codec, Step(codec, a, Wrote(writer, size)), task, text)
  {
    OthersStay(codec, a, Wrote(writer, size), task, text);
    var r := TaskOf(a, writer);
    if r.Writing? && r.written + size <= |codec.text(r.config)| {
      assert codec.text(r.config) == text;
      OverwriteSameText(a.file.value, text, GoodBytes(a, task, text), r.written, size);
    }
  }

  lemma StepKeepsIntact(codec: Codec, a: Agent, task: TaskName, text: Bytes, e: Event)
    requires Intact(codec, a, task, text) && Lets(e, task)
    ensures Intact(codec, Step(codec, a, e), task, text)
  {
    if e.Wrote? {
      WroteKeepsIntact(codec, a, task, text, e.task, e.size);
    } else {
      OthersStay(codec, a, e, task, text);
    }
  }

  lemma {:induction false} RunKeepsIntact(codec: Codec, a: Agent, task: TaskName, text: Bytes, events: seq<Event>)
    requires Intact(codec, a, task, text) && forall i :: 0 <= i < |events| ==> Lets(events[i], task)
    ensures Intact(codec, Run(codec, a, events), task, text)
    decreases |events|
  {
    if events != [] {
      assert Lets(events[0], task);
      assert forall i :: 0 <= i < |events[1..]| ==> events[1..][i] == events[i + 1];
      StepKeepsIntact(codec, a, task, text, events[0]);
      RunKeepsIntact(codec, Step(codec, a, events[0]), task, text, events[1..]);
    }
  }

  lemma OpeningIsIntact(codec: Codec, a: Agent, task: TaskName, config: RuntimeConfig)
    requires TaskOf(a, task) == Saving(config) && NoOtherText(codec, a, task, codec.text(config))
    ensures Intact(codec, Step(codec, a, SaveOpened(task)), task, codec.text(config))
  {
    var b := Step(codec, a, SaveOpened(task));
    forall t | t != task && TaskOf(b, t).Writing?
      ensures codec.text(TaskOf(b, t).config) == codec.text(config)
    {
      assert TaskOf(b, t) == TaskOf(a, t);
    }
  }

  /**
   How a stopped agent starts: not at all with an invalid bootstrap file, else from the saved file if that holds a
   valid config, and from the bootstrap settings if not.
   */
  lemma BootExactly(codec: Codec, file: Option<Bytes>, fallback: RuntimeConfig)
    ensures !Valid(fallback) ==> Step(codec, Stopped(file), Boot(fallback)) == Stopped(file)
    ensures Valid(fallback) ==>
              exists shared :: Step(codec, Stopped(file), Boot(fallback)) == Running(shared, file, ALL_RESTING)
                               && if file.Some? && codec.parse(file.value).Some? && Valid(codec.parse(file.value).value)
                                  then codec.parse(file.value) == Some(shared) else shared == fallback
  {
    if Valid(fallback) {
      var saved := LoadLastKnown(codec, file);
      var shared := if saved.Some? then saved.value else fallback;
      assert Step(codec, Stopped(file), Boot(fallback)) == Running(shared, file, ALL_RESTING);
    }
  }

  lemma BootFrom(codec: Codec, config: RuntimeConfig, fallback: RuntimeConfig)
    requires Lawful(codec) && Valid(config) && Valid(fallback)
    ensures Booted(codec, Some(codec.text(config)), fallback) == Running(config, Some(codec.text(config)), ALL_RESTING)
  {
    assert codec.parse(codec.text(config)) == Some(config);
  }

  lemma IntactEnds(codec: Codec, start: Agent, task: TaskName, text: Bytes, during: seq<Event>)
    requires Intact(codec, start, task, text)
    requires forall i :: 0 <= i < |during| ==> Lets(during[i], task)
    requires !TaskOf(Run(codec, start, during), task).Writing?
    ensures Run(codec, start, during).file == Some(text)
  {
    RunKeepsIntact(codec, start, task, text, during);
    var file := Run(codec, start, during).file.value;
    assert file == text;
  }

  /**
   A completed save left exactly its text, provided no save of another text overlapped it: none was being
   written when it opened the file, and none opened the file before it completed.
   */
  lemma UndisturbedSaveIsExact(codec: Codec, a: Agent, task: TaskName, config: RuntimeConfig, during: seq<Event>)
    requires TaskOf(a, task) == Saving(config) && NoOtherText(codec, a, task, codec.text(config))
    requires forall i :: 0 <= i < |during| ==> Lets(during[i], task)
    requires !TaskOf(Run(codec, Step(codec, a, SaveOpened(task)), during), task).Writing?
    ensures Run(codec, Step(codec, a, SaveOpened(task)), during).file == Some(codec.text(config))
  {
    OpeningIsIntact(codec, a, task, config);
    IntactEnds(codec, Step(codec, a, SaveOpened(task)), task, codec.text(config), during);
  }

  lemma RestartAfter(codec: Codec, saved: Agent, config: RuntimeConfig, quiet: seq<Event>, fallback: RuntimeConfig)
    requires Lawful(codec) && Valid(config) && Valid(fallback)
    requires saved.file == Some(codec.text(config))
    requires forall i :: 0 <= i < |quiet| ==> !TouchesFile(quiet[i])
    ensures Step(codec, Step(codec, Run(codec, saved, quiet), Crash), Boot(fallback))
         == Running(config, Some(codec.text(config)), ALL_RESTING)
  {
    FileUntouched(codec, saved, quiet);
    BootFrom(codec, config, fallback);
  }

  /**
   A restart resumes from the last completed save, even if the crash came before it was applied, provided
   no save of another text overlapped it. Nothing may touch the file afterwards; restarts may come and go.
   */
  lemma RestartResumesLastSave(
    codec: Codec, a: Agent, task: TaskName, config: RuntimeConfig, during: seq<Event>, quiet: seq<Event>,
    fallback: RuntimeConfig)
    requires Lawful(codec) && Good(a) && Valid(fallback)
    requires TaskOf(a, task) == Saving(config) && NoOtherText(codec, a, task, codec.text(config))
    requires forall i :: 0 <= i < |during| ==> Lets(during[i], task)
    requires !TaskOf(Run(codec, Step(codec, a, SaveOpened(task)), during), task).Writing?
    requires forall i :: 0 <= i < |quiet| ==> !TouchesFile(quiet[i])
    ensures var saved := Run(codec, Step(codec, a, SaveOpened(task)), during);
            Step(codec, Step(codec, Run(codec, saved, quiet), Crash), Boot(fallback))
            == Running(config, Some(codec.text(config)), ALL_RESTING)
  {
    assert Valid(config) by {
      assert CarriesValid(a.tasks[task]);
    }
    UndisturbedSaveIsExact(codec, a, task, config, during);
    RestartAfter(codec, Run(codec, Step(codec, a, SaveOpened(task)), during), config, quiet, fallback);
  }

  // ---------------------------------------------------------------- overlaps

  /** Both tasks fetched; both open the file, and then each writes its whole text at once. */
  function Overlap(codec: Codec, x: RuntimeConfig, y: RuntimeConfig): seq<Event> {
    [Fetched(Poll, Some(x)), Fetched(Websocket, Some(y)), SaveOpened(Poll), SaveOpened(Websocket)]
    + [Wrote(Poll, |codec.text(x)|), Wrote(Websocket, |codec.text(y)|)]
    + [SaveCompleted(Poll), SaveCompleted(Websocket), Applied(Poll), Applied(Websocket)]
  }

  lemma RunTwo(codec: Codec, a: Agent, e1: Event, e2: Event)
    ensures Run(codec, a, [e1, e2]) == Step(codec, Step(codec, a, e1), e2)
  {
    var b := Step(codec, a, e1);
    assert [e1, e2][1..] == [e2] && [e2][1..] == [];
    assert Run(codec, b, [e2]) == Run(codec, Step(codec, b, e2), []);
  }

  lemma RunFour(codec: Codec, a: Agent, e1: Event, e2: Event, e3: Event, e4: Event)
    ensures Run(codec, a, [e1, e2, e3, e4])
         == Step(codec, Step(codec, Step(codec, Step(codec, a, e1), e2), e3), e4)
  {
    assert [e1, e2, e3, e4] == [e1, e2] + [e3, e4];
    RunConcat(codec, a, [e1, e2], [e3, e4]);
    RunTwo(codec, a, e1, e2);
    RunTwo(codec, Step(codec, Step(codec, a, e1), e2), e3, e4);
  }

  predicate Both(a: Agent, poll: Refresh, websocket: Refresh) {
    a.Running? && TaskOf(a, Poll) == poll && TaskOf(a, Websocket) == websocket
  }

  /** The whole state, task by task. */
  predicate Stands(a: Agent, shared: RuntimeConfig, file: Option<Bytes>, poll: Refresh, websocket: Refresh) {
    Both(a, poll, websocket) && a.shared == shared && a.file == file
  }

  lemma BothOpen(codec: Codec, a: Agent, x: RuntimeConfig, y: RuntimeConfig)
    requires Both(a, Resting, Resting) && Valid(x) && Valid(y)
    ensures Stands(Run(codec, a, [Fetched(Poll, Some(x)), Fetched(Websocket, Some(y)), SaveOpened(Poll), SaveOpened(Websocket)]),
                   a.shared, Some([]), Writing(x, 0), Writing(y, 0))
  {
    RunFour(codec, a, Fetched(Poll, Some(x)), Fetched(Websocket, Some(y)), SaveOpened(Poll), SaveOpened(Websocket));
    var b := Step(codec, Step(codec, a, Fetched(Poll, Some(x))), Fetched(Websocket, Some(y)));
    assert Stands(b, a.shared, a.file, Saving(x), Saving(y));
  }

  function Later(earlier: Bytes, later: Bytes): Bytes {
    if |earlier| <= |later| then later else Mixed(later, earlier)
  }

  lemma WholeWrites(s: Bytes, t: Bytes)
    ensures Overwrite([], 0, s) == s && Overwrite(s, 0, t) == Later(s, t)
  {
    var left := Later(s, t);
    assert |Overwrite(s, 0, t)| == |left|;
    assert forall i :: 0 <= i < |left| ==> left[i] == if i < |t| then t[i] else s[i];
  }

  lemma WroteAll(codec: Codec, a: Agent, task: TaskName, config: RuntimeConfig)
    requires TaskOf(a, task) == Writing(config, 0)
    ensures var text := codec.text(config);
            Step(codec, a, Wrote(task, |text|))
            == a.(tasks := a.tasks[task := Writing(config, |text|)], file := Some(Overwrite(BytesOf(a.file), 0, text)))
  {
    var text := codec.text(config);
    assert text[0..|text|] == text;
  }

  lemma BothWrite(codec: Codec, a: Agent, x: RuntimeConfig, y: RuntimeConfig)
    requires Both(a, Writing(x, 0), Writing(y, 0)) && a.file == Some([])
    ensures var s, t := codec.text(x), codec.text(y);
            Stands(Run(codec, a, [Wrote(Poll, |s|), Wrote(Websocket, |t|)]),
                   a.shared, Some(Later(s, t)), Writing(x, |s|), Writing(y, |t|))
  {
    var s, t := codec.text(x), codec.text(y);
    RunTwo(codec, a, Wrote(Poll, |s|), Wrote(Websocket, |t|));
    WholeWrites(s, t);
    WroteAll(codec, a, Poll, x);
    var b := Step(codec, a, Wrote(Poll, |s|));
    assert Stands(b, a.shared, Some(s), Writing(x, |s|), Writing(y, 0));
    WroteAll(codec, b, Websocket, y);
  }

  lemma BothEnd(codec: Codec, a: Agent, x: RuntimeConfig, y: RuntimeConfig)
    requires Both(a, Writing(x, |codec.text(x)|), Writing(y, |codec.text(y)|))
    ensures Stands(Run(codec, a, [SaveCompleted(Poll), SaveCompleted(Websocket), Applied(Poll), Applied(Websocket)]),
                   y, a.file, Resting, Resting)
  {
    RunFour(codec, a, SaveCompleted(Poll), SaveCompleted(Websocket), Applied(Poll), Applied(Websocket));
    var b := Step(codec, Step(codec, a, SaveCompleted(Poll)), SaveCompleted(Websocket));
    assert Stands(b, a.shared, a.file, Applying(x), Applying(y));
  }

  /**
   What two overlapping saves leave, both having succeeded: the later text, and behind it whatever the
   earlier one had beyond that length. So the later save survives exactly if the earlier text was no longer.
   */
  lemma OverlapLeavesTail(codec: Codec, a: Agent, x: RuntimeConfig, y: RuntimeConfig)
    requires Both(a, Resting, Resting) && Valid(x) && Valid(y)
    ensures var s, t := codec.text(x), codec.text(y);
            && Stands(Run(codec, a, Overlap(codec, x, y)), y, Some(Later(s, t)), Resting, Resting)
            && (Later(s, t) == t <==> |s| <= |t|)
  {
    var s, t := codec.text(x), codec.text(y);
    var opens := [Fetched(Poll, Some(x)), Fetched(Websocket, Some(y)), SaveOpened(Poll), SaveOpened(Websocket)];
    var writes := [Wrote(Poll, |s|), Wrote(Websocket, |t|)];
    var ends := [SaveCompleted(Poll), SaveCompleted(Websocket), Applied(Poll), Applied(Websocket)];
    RunConcat(codec, a, opens + writes, ends);
    RunConcat(codec, a, opens, writes);
    BothOpen(codec, a, x, y);
    BothWrite(codec, Run(codec, a, opens), x, y);
    BothEnd(codec, Run(codec, a, opens + writes), x, y);
  }

  lemma BootFromMixed(codec: Codec, short: Bytes, long: Bytes, fallback: RuntimeConfig)
    requires |short| < |long| && codec.parse(Mixed(short, long)).None? && Valid(fallback)
    ensures Booted(codec, Some(Mixed(short, long)), fallback) == Running(fallback, Some(Mixed(short, long)), ALL_RESTING)
  {
  }

  /** Without the proviso the claim fails: two saves that both succeed can leave a file no restart can read. */
  lemma OverlapLosesBothSaves(codec: Codec, a: Agent, x: RuntimeConfig, y: RuntimeConfig, fallback: RuntimeConfig)
    requires Both(a, Resting, Resting)
    requires Lawful(codec) && Valid(x) && Valid(y) && Valid(fallback)
    requires |codec.text(y)| < |codec.text(x)|
    ensures var b := Run(codec, a, Overlap(codec, x, y));
            && Both(b, Resting, Resting) && b.shared == y
            && Step(codec, Step(codec, b, Crash), Boot(fallback)) == Running(fallback, b.file, ALL_RESTING)
  {
    OverlapLeavesTail(codec, a, x, y);
    BootFromMixed(codec, codec.text(y), codec.text(x), fallback);
  }

  // ------------------------------------------- file and shared config together

  /** A refresh up to its completed save. */
  function FetchAndSave(codec: Codec, task: TaskName, config: RuntimeConfig): seq<Event> {
    [Fetched(task, Some(config)), SaveOpened(task), Wrote(task, |codec.text(config)|), SaveCompleted(task)]
  }

  lemma FetchAndOpen(codec: Codec, a: Agent, task: TaskName, config: RuntimeConfig)
    requires a.Running? && TaskOf(a, task).Resting? && Valid(config)
    ensures Step(codec, Step(codec, a, Fetched(task, Some(config))), SaveOpened(task))
         == a.(file := Some([]), tasks := a.tasks[task := Writing(config, 0)])
  {
    var b := Step(codec, a, Fetched(task, Some(config)));
    assert b == a.(tasks := a.tasks[task := Saving(config)]);
    assert a.tasks[task := Saving(config)][task := Writing(config, 0)] == a.tasks[task := Writing(config, 0)];
  }

  lemma WriteAndComplete(codec: Codec, b: Agent, task: TaskName, config: RuntimeConfig)
    requires TaskOf(b, task) == Writing(config, 0) && b.file == Some([])
    ensures var text := codec.text(config);
            Step(codec, Step(codec, b, Wrote(task, |text|)), SaveCompleted(task))
            == b.(file := Some(text), tasks := b.tasks[task := Applying(config)])
  {
    var text := codec.text(config);
    WroteAll(codec, b, task, config);
    WholeWrites(text, []);
    var c := Step(codec, b, Wrote(task, |text|));
    assert c == b.(file := Some(text), tasks := b.tasks[task := Writing(config, |text|)]);
    assert c.tasks[task := Applying(config)] == b.tasks[task := Applying(config)];
  }

  lemma FetchAndSaveEnds(codec: Codec, a: Agent, task: TaskName, config: RuntimeConfig)
    requires a.Running? && TaskOf(a, task).Resting? && Valid(config)
    ensures Run(codec, a, FetchAndSave(codec, task, config))
         == a.(file := Some(codec.text(config)), tasks := a.tasks[task := Applying(config)])
  {
    var text := codec.text(config);
    RunFour(codec, a, Fetched(task, Some(config)), SaveOpened(task), Wrote(task, |text|), SaveCompleted(task));
    FetchAndOpen(codec, a, task, config);
    var b := a.(file := Some([]), tasks := a.tasks[task := Writing(config, 0)]);
    WriteAndComplete(codec, b, task, config);
    assert b.tasks[task := Applying(config)] == a.tasks[task := Applying(config)];
  }

  /** Even with saves that do not overlap, the two refreshers can leave file and shared config on different versions. */
  lemma RefreshersCanDisagree(codec: Codec, a: Agent, older: RuntimeConfig, newer: RuntimeConfig)
    returns (events: seq<Event>)
    requires Both(a, Resting, Resting) && Valid(older) && Valid(newer)
    ensures Stands(Run(codec, a, events), older, Some(codec.text(newer)), Resting, Resting)
  {
    var first, second := FetchAndSave(codec, Poll, older), FetchAndSave(codec, Websocket, newer);
    var ends := [Applied(Websocket), Applied(Poll)];
    events := first + second + ends;
    RunConcat(codec, a, first + second, ends);
    RunConcat(codec, a, first, second);
    FetchAndSaveEnds(codec, a, Poll, older);
    FetchAndSaveEnds(codec, Run(codec, a, first), Websocket, newer);
    LateApply(codec, Run(codec, a, first + second), older, newer);
  }

  lemma LateApply(codec: Codec, a: Agent, older: RuntimeConfig, newer: RuntimeConfig)
    requires Both(a, Applying(older), Applying(newer))
    ensures Stands(Run(codec, a, [Applied(Websocket), Applied(Poll)]), older, a.file, Resting, Resting)
  {
    RunTwo(codec, a, Applied(Websocket), Applied(Poll));
    assert Stands(Step(codec, a, Applied(Websocket)), newer, a.file, Applying(older), Resting);
  }

  predicate AllRest(a: Agent) {
    a.Running? && forall t :: TaskOf(a, t).Resting?
  }

  /** One refresh at a time, and every save completes. */
  predicate InTurn(a: Agent, e: Event) {
    && !e.Crash? && !e.PowerLoss? && !e.SaveFailed?
    && (e.Fetched? ==> forall t :: TaskOf(a, t).Resting?)
  }

  predicate AllInTurn(codec: Codec, a: Agent, events: seq<Event>)
    decreases |events|
  {
    events != [] ==> InTurn(a, events[0]) && AllInTurn(codec, Step(codec, a, events[0]), events[1..])
  }

  /** At most one task is busy, and the file stands where its save has got to. */
  predicate Turned(codec: Codec, start: Agent, a: Agent, busy: TaskName) {
    && a.Running? && (forall t :: t != busy ==> TaskOf(a, t).Resting?)
    && match TaskOf(a, busy) {
         case Resting => a == start || a.file == Some(codec.text(a.shared))
         case Saving(_) => true
         case Writing(c, n) => n <= |codec.text(c)| && a.file == Some(codec.text(c)[..n])
         case Applying(c) => a.file == Some(codec.text(c))
       }
  }

  /** Who is busy after the step. */
  function BusyAfter(e: Event, busy: TaskName): TaskName {
    if e.Fetched? && e.response.Some? && Validate(e.response.value).Ok? then e.task else busy
  }

  lemma AppendChunk(text: Bytes, n: nat, size: nat)
    requires n + size <= |text|
    ensures Overwrite(text[..n], n, text[n..n + size]) == text[..n + size]
  {
  }

  lemma TurnKeeps(codec: Codec, start: Agent, a: Agent, busy: TaskName, e: Event)
    requires Turned(codec, start, a, busy) && InTurn(a, e)
    ensures Turned(codec, start, Step(codec, a, e), BusyAfter(e, busy))
  {
    var r, b := TaskOf(a, busy), Step(codec, a, e);
    if r.Writing? {
      var text := codec.text(r.config);
      assert text[..|text|] == text;
      if e.Wrote? && e.task == busy && r.written + e.size <= |text| {
        AppendChunk(text, r.written, e.size);
      }
    }
    forall t | t != BusyAfter(e, busy)
      ensures TaskOf(b, t).Resting?
    {
      assert t != busy ==> TaskOf(a, t).Resting?;
    }
  }

  lemma {:induction false} TurnsKeep(codec: Codec, start: Agent, a: Agent, busy: TaskName, events: seq<Event>)
    returns (last: TaskName)
    requires Turned(codec, start, a, busy) && AllInTurn(codec, a, events)
    ensures Turned(codec, start, Run(codec, a, events), last)
    decreases |events|
  {
    if events == [] {
      last := busy;
    } else {
      TurnKeeps(codec, start, a, busy, events[0]);
      last := TurnsKeep(codec, start, Step(codec, a, events[0]), BusyAfter(events[0], busy), events[1..]);
    }
  }

  /** Refreshes that take turns and save successfully leave file and shared config together whenever all rest. */
  lemma RefreshesInTurnAgree(codec: Codec, start: Agent, events: seq<Event>)
    requires AllRest(start) && AllInTurn(codec, start, events)
    ensures var a := Run(codec, start, events);
            AllRest(a) ==> a == start || a.file == Some(codec.text(a.shared))
  {
    var last := TurnsKeep(codec, start, start, Poll, events);
  }

  /** Saves all complete, and none opens the file while another is being written; refreshes may overlap otherwise. */
  predicate Separate(a: Agent, e: Event) {
    && !e.Crash? && !e.PowerLoss? && !e.SaveFailed?
    && (e.SaveOpened? ==> !TaskOf(a, Poll).Writing? && !TaskOf(a, Websocket).Writing?)
  }

  predicate AllSeparate(codec: Codec, a: Agent, events: seq<Event>)
    decreases |events|
  {
    events != [] ==> Separate(a, events[0]) && AllSeparate(codec, Step(codec, a, events[0]), events[1..])
  }

  /** The last config whose save completed and the last one that was applied. */
  datatype Marks = Marks(saved: Option<RuntimeConfig>, applied: Option<RuntimeConfig>)

  function MarkStep(codec: Codec, a: Agent, m: Marks, e: Event): Marks {
    match e
    case SaveCompleted(task) =>
      var r := TaskOf(a, task);
      if r.Writing? && r.written == |codec.text(r.config)| then m.(saved := Some(r.config)) else m
    case Applied(task) =>
      var r := TaskOf(a, task);
      if r.Applying? then m.(applied := Some(r.config)) else m
    case _ => m
  }

  function MarkRun(codec: Codec, a: Agent, m: Marks, events: seq<Event>): Marks
    decreases |events|
  {
    if events == [] then m else MarkRun(codec, Step(codec, a, events[0]), MarkStep(codec, a, m, events[0]), events[1..])
  }

  /** The file stands where its one writer has got to, or else holds the last saved text. */
  predicate FileMarked(codec: Codec, a: Agent, m: Marks) {
    var p, w := TaskOf(a, Poll), TaskOf(a, Websocket);
    && !(p.Writing? && w.Writing?)
    && (p.Writing? ==> p.written <= |codec.text(p.config)| && a.file == Some(codec.text(p.config)[..p.written]))
    && (w.Writing? ==> w.written <= |codec.text(w.config)| && a.file == Some(codec.text(w.config)[..w.written]))
    && (!p.Writing? && !w.Writing? && m.saved.Some? ==> a.file == Some(codec.text(m.saved.value)))
  }

  /** The shared config is the last applied one, and what was saved is applied or about to be. */
  predicate SharedMarked(a: Agent, m: Marks) {
    var pending := TaskOf(a, Poll).Applying? || TaskOf(a, Websocket).Applying?;
    && a.Running? && (m.applied.Some? ==> a.shared == m.applied.value)
    && (m.saved.None? ==> m.applied.None? && !pending)
    && (m.saved.Some? ==> m.applied.Some? || pending)
  }

  /** Every event leaves one of the two tasks as it was. */
  lemma OneTaskMoves(codec: Codec, a: Agent, e: Event)
    requires a.Running? && !e.Crash? && !e.PowerLoss?
    ensures var b := Step(codec, a, e);
            b.Running? && (TaskOf(b, Poll) == TaskOf(a, Poll) || TaskOf(b, Websocket) == TaskOf(a, Websocket))
    ensures !e.Boot? ==> e.task == Poll || e.task == Websocket
  {
    if !e.Boot? {
      assert e.task.Poll? || e.task.Websocket?;
    }
  }

  lemma MarksKeepFile(codec: Codec, a: Agent, m: Marks, e: Event)
    requires a.Running? && FileMarked(codec, a, m) && Separate(a, e)
    ensures FileMarked(codec, Step(codec, a, e), MarkStep(codec, a, m, e))
  {
    OneTaskMoves(codec, a, e);
    if e.SaveCompleted? || e.Wrote? {
      var r := TaskOf(a, e.task);
      if r.Writing? {
        var text := codec.text(r.config);
        assert text[..|text|] == text && a.file == Some(text[..r.written]);
        if e.Wrote? && r.written + e.size <= |text| {
          AppendChunk(text, r.written, e.size);
        }
      }
    }
  }

  lemma MarksKeepShared(codec: Codec, a: Agent, m: Marks, e: Event)
    requires SharedMarked(a, m) && Separate(a, e)
    ensures SharedMarked(Step(codec, a, e), MarkStep(codec, a, m, e))
  {
    OneTaskMoves(codec, a, e);
  }

  lemma {:induction false} RunKeepsMarks(codec: Codec, a: Agent, m: Marks, events: seq<Event>)
    requires FileMarked(codec, a, m) && SharedMarked(a, m) && AllSeparate(codec, a, events)
    ensures FileMarked(codec, Run(codec, a, events), MarkRun(codec, a, m, events))
    ensures SharedMarked(Run(codec, a, events), MarkRun(codec, a, m, events))
    decreases |events|
  {
    if events != [] {
      MarksKeepFile(codec, a, m, events[0]);
      MarksKeepShared(codec, a, m, events[0]);
      RunKeepsMarks(codec, Step(codec, a, events[0]), MarkStep(codec, a, m, events[0]), events[1..]);
    }
  }

  /**
   Exactly when file and shared config agree: in a run from rest whose saves complete and do not overlap,
   whenever both tasks rest again and something was saved, the file is the text of the shared config if and
   only if the last config saved and the last config applied have the same text.
   */
  lemma RefreshersAgreeExactly(codec: Codec, start: Agent, events: seq<Event>)
    requires Both(start, Resting, Resting) && AllSeparate(codec, start, events)
    ensures var a, m := Run(codec, start, events), MarkRun(codec, start, Marks(None, None), events);
            Both(a, Resting, Resting) ==>
              && (m.saved.Some? <==> m.applied.Some?)
              && (m.saved.Some? ==>
                    (a.file == Some(codec.text(a.shared)) <==> codec.text(m.saved.value) == codec.text(m.applied.value)))
  {
    RunKeepsMarks(codec, start, Marks(None, None), events);
  }

  // ------------------------------------------------------ refresh, in place

  /** How a save ends: before the file was opened, after some bytes, or complete. */
  datatype SaveEnd = NotOpened | CutShort(written: nat) | Whole

  /** What an undisturbed save leaves in the file. */
  function Left(file: Option<Bytes>, text: Bytes, end: SaveEnd): Option<Bytes> {
    match end
    case NotOpened => file
    case CutShort(written) => Some(text[..if written < |text| then written else |text|])
    case Whole => Some(text)
  }

  /** The state shared by both tasks. */
  class Process {
    const codec: Codec
    var shared: RuntimeConfig
    var file: Option<Bytes>

    constructor (codec: Codec, shared: RuntimeConfig, file: Option<Bytes>)
      ensures this.codec == codec && this.shared == shared && this.file == file
    {
      this.codec := codec;
      this.shared := shared;
      this.file := file;
    }

    /** `save_last_known_config`: truncate, then write in pieces no longer than `piece`. */
    method Save(config: RuntimeConfig, end: SaveEnd, piece: nat) returns (ok: bool)
      requires piece > 0
      modifies this`file
      ensures ok == end.Whole? && file == Left(old(file), codec.text(config), end)
    {
      if end.NotOpened? {
        return false;
      }
      var text := codec.text(config);
      var limit := if end.CutShort? && end.written < |text| then end.written else |text|;
      file := Some([]);
      var written := 0;
      while written < limit
        invariant written <= limit && file == Some(text[..written])
      {
        var size := if piece <= limit - written then piece else limit - written;
        AppendChunk(text, written, size);
        file := Some(Overwrite(file.value, written, text[written..written + size]));
        written := written + size;
      }
      assert text[..|text|] == text;
      return end.Whole?;
    }

    /** `refresh_remote_config`, run by one task without interference; a failed save is only logged. */
    method RefreshRemoteConfig(response: Option<RuntimeConfig>, end: SaveEnd, piece: nat)
      requires piece > 0
      modifies this
      ensures response.Some? && Validate(response.value).Ok? ==>
                shared == response.value && file == Left(old(file), codec.text(response.value), end)
      ensures response.None? || Validate(response.value).Err? ==> shared == old(shared) && file == old(file)
    {
      if response.None? {
        return;
      }
      var config := response.value;
      if Validate(config).Err? {
        return;
      }
      var saved := Save(config, end, piece);
      shared := config;
    }
  }

  /** The events of one task's undisturbed refresh. */
  function RefreshEvents(codec: Codec, task: TaskName, config: RuntimeConfig, end: SaveEnd): seq<Event> {
    match end
    case NotOpened => [Fetched(task, Some(config)), SaveFailed(task)]
    case CutShort(written) =>
      [Fetched(task, Some(config)), SaveOpened(task),
       Wrote(task, if written < |codec.text(config)| then written else |codec.text(config)|), SaveFailed(task)]
    case Whole => FetchAndSave(codec, task, config)
  }

  lemma CutShortEnds(codec: Codec, a: Agent, task: TaskName, config: RuntimeConfig, n: nat)
    requires a.Running? && TaskOf(a, task).Resting? && Valid(config) && n <= |codec.text(config)|
    ensures Run(codec, a, [Fetched(task, Some(config)), SaveOpened(task), Wrote(task, n), SaveFailed(task)])
         == a.(file := Some(codec.text(config)[..n]), tasks := a.tasks[task := Applying(config)])
  {
    RunFour(codec, a, Fetched(task, Some(config)), SaveOpened(task), Wrote(task, n), SaveFailed(task));
    FetchAndOpen(codec, a, task, config);
    var b := a.(file := Some([]), tasks := a.tasks[task := Writing(config, 0)]);
    var c := Step(codec, b, Wrote(task, n));
    assert Overwrite([], 0, codec.text(config)[0..n]) == codec.text(config)[..n];
    assert c == a.(file := Some(codec.text(config)[..n]), tasks := a.tasks[task := Writing(config, n)]);
  }

  /** The machine's events for one undisturbed refresh do what the method does. */
  lemma RefreshIsItsEvents(codec: Codec, a: Agent, task: TaskName, config: RuntimeConfig, end: SaveEnd)
    requires AllRest(a) && Valid(config)
    ensures Run(codec, a, RefreshEvents(codec, task, config, end))
         == a.(file := Left(a.file, codec.text(config), end), tasks := a.tasks[task := Applying(config)])
  {
    var text := codec.text(config);
    assert TaskOf(a, task).Resting?;
    match end
    case NotOpened =>
      RunTwo(codec, a, Fetched(task, Some(config)), SaveFailed(task));
    case Whole => FetchAndSaveEnds(codec, a, task, config);
    case CutShort(written) => CutShortEnds(codec, a, task, config, if written < |text| then written else |text|);
  }

  // ------------------------------------------------------------------ jitter

  /** `jittered_interval`, computed exactly. */
  function JitteredInterval(base: u64, agentId: Fnv.Bytes): int {
    var spread := base / 10;
    if spread == 0 then base else base - spread + Fnv.Hash(agentId) % (spread * 2 + 1)
  }

  /** The jitter stays within one tenth of the base, and 64-bit arithmetic overflows only at the far end. */
  lemma JitterBounds(base: u64, agentId: Fnv.Bytes)
    ensures base - base / 10 <= JitteredInterval(base, agentId) <= base + base / 10
    ensures base > 0 ==> JitteredInterval(base, agentId) > 0
    ensures (base / 10) * 2 + 1 < U64_LIMIT
    ensures base + base / 10 < U64_LIMIT ==> JitteredInterval(base, agentId) < U64_LIMIT
  {
    var spread := base / 10;
    if spread > 0 {
      var m := spread * 2 + 1;
      assert 0 <= Fnv.Hash(agentId) % m < m;
    }
  }

  /** Agents spread out by their hash: it is the offset into the window plus a number of whole windows. */
  lemma JitterFollowsHash(base: u64, agentId: Fnv.Bytes) returns (offset: nat, windows: nat)
    ensures var window := 2 * (base / 10) + 1;
            && JitteredInterval(base, agentId) == base - base / 10 + offset
            && offset < window && Fnv.Hash(agentId) == windows * window + offset
  {
    var spread := base / 10;
    offset, windows := WholeWindows(Fnv.Hash(agentId), spread * 2 + 1);
    if spread == 0 {
      assert offset == 0;
    }
  }

  lemma WholeWindows(hash: nat, window: nat) returns (offset: nat, windows: nat)
    requires window > 0
    ensures offset == hash % window && offset < window && hash == windows * window + offset
  {
    offset, windows := hash % window, hash / window;
  }
}
