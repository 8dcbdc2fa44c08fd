/**
 * Client programs of `Chrome`, stated only through the contracts of its
 * methods: what a caller sees across several calls and several instances.
 */
module ChromeScenarios {
  import opened Wrappers
  import opened ArgumentMap
  import opened Drivers

  /**
   * Two instances sharing one process slot: the second start spawns nothing,
   * and so does not even need a binary on its host; the slot keeps the
   * process the first start spawned.
   */
  method SharedProcess(first: Host, second: Host)
    returns (a: Result<Session, StartError>, b: Result<Session, StartError>, process: Option<Process>)
    requires LocateBinary(first).Success? && first.grantsSession && second.grantsSession
    ensures a.Success? && b.Success? && a.value != b.value
    ensures process == Some(Process([LocateBinary(first).value, ""], true))
  {
    var slot := new ProcessSlot();
    var one := new Chrome(slot);
    var two := new Chrome(slot);
    a := one.Start(first);
    b := two.Start(second);
    assert slot.spawns == 1;
    process := two.GetProcess();
  }

  /**
   * Start, stop, start again: the second start hands back the same, already
   * quit, session, and the stopped process is not restarted.
   */
  method RestartAfterStop(host: Host)
    returns (first: Result<Session, StartError>, again: Result<Session, StartError>, process: Option<Process>)
    requires LocateBinary(host).Success? && host.grantsSession
    ensures first.Success? && again == first && first.value.closed
    ensures process == Some(Process([LocateBinary(host).value, ""], false))
  {
    var slot := new ProcessSlot();
    var chrome := new Chrome(slot);
    first := chrome.Start(host);
    var stopped := chrome.Stop();
    again := chrome.Start(host);
    process := chrome.GetProcess();
  }

  /**
   * An argument added before the first start reaches the session's switches
   * (a new one after the three defaults); arguments added afterwards change
   * nothing.
   */
  method ConfigureThenStart(host: Host, k: string, v: Option<string>, late: string, lateValue: Option<string>)
    returns (r: Result<Session, StartError>, frozen: seq<string>)
    requires LocateBinary(host).Success? && host.grantsSession
    ensures r.Success? && r.value.url == ENDPOINT
    ensures FlagOf(Arg(k, v)) in r.value.options
    ensures !HasKey(DEFAULTS, k) ==>
      r.value.options == ["--disable-gpu", "--headless", "--window-size=1920,1080", FlagOf(Arg(k, v))]
    ensures frozen == r.value.options
  {
    var slot := new ProcessSlot();
    var chrome := new Chrome(slot);
    chrome.AddArgument(k, v);
    r := chrome.Start(host);
    PutFlag(DEFAULTS, k, v);
    if !HasKey(DEFAULTS, k) {
      PutNewKeyFlags(DEFAULTS, k, v);
      DefaultFlags();
    }
    chrome.AddArgument(late, lateValue);
    frozen := chrome.ParseArguments();
  }

  /**
   * Overriding a default keeps its position: the window size stays the third switch.
   */
  method OverrideDefault(size: string) returns (flags: seq<string>)
    ensures flags == ["--disable-gpu", "--headless", "--window-size=" + size]
  {
    var slot := new ProcessSlot();
    var chrome := new Chrome(slot);
    chrome.AddArgument("window-size", Some(size));
    OverrideWindowSize(size);
    flags := chrome.ParseArguments();
  }

  lemma OverrideWindowSize(size: string)
    ensures Flags(Put(DEFAULTS, "window-size", Some(size))) == ["--disable-gpu", "--headless", "--window-size=" + size]
  {
    DefaultKeys("window-size");
    var r := Put(DEFAULTS, "window-size", Some(size));
    assert DEFAULTS[0].name != "window-size" && DEFAULTS[1].name != "window-size";
    assert r == [DEFAULTS[0], DEFAULTS[1], Arg("window-size", Some(size))];
    FlagsOfThree(DEFAULTS[0], DEFAULTS[1], Arg("window-size", Some(size)));
    assert FlagOf(DEFAULTS[0]) == "--disable-gpu";
    assert FlagOf(DEFAULTS[1]) == "--headless";
    assert FlagOf(Arg("window-size", Some(size))) == "--" + "window-size" + "=" + size == "--window-size=" + size;
  }

  /**
   * No binary on a fresh slot: `start()` throws the "could not locate"
   * exception and leaves the instance and the slot as they were.
   */
  method MissingBinary(host: Host)
    returns (r: Result<Session, StartError>, process: Option<Process>, options: seq<string>, hasDriver: bool)
    requires LocateBinary(host).Failure?
    ensures r == Failure(BinaryNotFound(NOT_FOUND_MESSAGE))
    ensures process == None && options == [] && !hasDriver
  {
    var slot := new ProcessSlot();
    var chrome := new Chrome(slot);
    r := chrome.Start(host);
    process := chrome.GetProcess();
    options := chrome.chromeOptions;
    hasDriver := chrome.driver != null;
  }

  /**
   * A refused session leaves the switches already handed to the options
   * object and the process running, so a retry hands the switches over again.
   */
  method RetryAfterRefusal(refusing: Host, granting: Host)
    returns (first: Result<Session, StartError>, second: Result<Session, StartError>, process: Option<Process>)
    requires LocateBinary(refusing).Success? && !refusing.grantsSession && granting.grantsSession
    ensures first == Failure(SessionRefused) && second.Success?
    ensures second.value.options == Flags(DEFAULTS) + Flags(DEFAULTS)
    ensures process == Some(Process([LocateBinary(refusing).value, ""], true))
  {
    var slot := new ProcessSlot();
    var chrome := new Chrome(slot);
    first := chrome.Start(refusing);
    second := chrome.Start(granting);
    process := chrome.GetProcess();
  }
}
