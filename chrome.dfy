/**
 * The chromedriver lifecycle: the `Chrome` driver, the process slot that all
 * `Chrome` instances share (PHP's `static $process`), and the stand-ins for
 * the external process and WebDriver session.
 */
module Drivers {
  import opened Wrappers
  import opened AbstractDriver
  import opened ArgumentMap

  /** Where the WebDriver session is always requested. */
  const ENDPOINT := "http://localhost:9515"

  /** The bundled binaries, relative to the driver's own directory (`__DIR__`). */
  const WINDOWS_BINARY := "/../bin/windows/chromedriver.exe"
  const MAC_BINARY := "/../bin//mac/chromedriver"
  const LINUX_BINARY := "/../bin/linux/chromedriver"

  const NOT_FOUND_MESSAGE := "WPUnit: Could not locate the chromedriver executable file"

  /**
   * Everything the driver reads from its surroundings: `PHP_OS`, `php_uname()`,
   * `__DIR__`, the filesystem as seen by `realpath` (a path resolves to its
   * canonical form when it is a key of `files`), and whether the chromedriver's
   * endpoint grants a session.
   */
  datatype Host = Host(
    osName: string,
    uname: string,
    dir: string,
    files: map<string, string>,
    grantsSession: bool)

  /** The exceptions `start()` can raise. */
  datatype StartError =
    | BinaryNotFound(message: string)
    | SessionRefused

  /** `stop()` on an instance that never obtained a session dereferences null. */
  datatype StopError = NoSession

  /** A chromedriver process: the command it was built with and whether it runs. */
  datatype Process = Process(command: seq<string>, running: bool)

  /** PHP's `realpath`: the canonical path, or `None` for its `false`. */
  function RealPath(host: Host, path: string): (r: Option<string>)
    ensures r.Some? <==> path in host.files
    ensures r.Some? ==> r.value in host.files.Values
  {
    if path in host.files then Some(host.files[path]) else None
  }

  /**
   * `locateBinary()`: Windows is tested first, then Mac, else Linux.  The
   * Windows path is not checked for existence (PHP turns a `false` from
   * `realpath` into the empty string on return); a Mac or Linux path that
   * does not resolve raises the "could not locate" exception.
   */
  function LocateBinary(host: Host): (r: Result<string, StartError>)
    ensures IsWindows(host.osName, host.uname) ==> r.Success?
    ensures r.Failure? ==> r.error == BinaryNotFound(NOT_FOUND_MESSAGE)
    ensures r.Success? && !IsWindows(host.osName, host.uname) ==> r.value in host.files.Values
  {
    if IsWindows(host.osName, host.uname) then
      Success(RealPath(host, host.dir + WINDOWS_BINARY).GetOr(""))
    else
      var binaryPath :=
        if IsMac(host.osName, host.uname) then RealPath(host, host.dir + MAC_BINARY)
        else RealPath(host, host.dir + LINUX_BINARY);
      if binaryPath.None? then Failure(BinaryNotFound(NOT_FOUND_MESSAGE))
      else Success(binaryPath.value)
  }

  /** On Windows the Windows binary is chosen, even when `PHP_OS` says Darwin. */
  lemma LocateWindows(host: Host)
    requires IsWindows(host.osName, host.uname)
    ensures LocateBinary(host) == Success(RealPath(host, host.dir + WINDOWS_BINARY).GetOr(""))
  {
  }

  /** On a Mac that is not Windows the Mac binary is chosen, and must exist. */
  lemma LocateMac(host: Host)
    requires !IsWindows(host.osName, host.uname) && host.osName == MAC_OS_NAME
    ensures LocateBinary(host).Success? <==> host.dir + MAC_BINARY in host.files
    ensures LocateBinary(host).Success? ==> LocateBinary(host).value == host.files[host.dir + MAC_BINARY]
  {
  }

  /** Every other platform is treated as Linux, and its binary must exist. */
  lemma LocateLinux(host: Host)
    requires !IsWindows(host.osName, host.uname) && host.osName != MAC_OS_NAME
    ensures LocateBinary(host).Success? <==> host.dir + LINUX_BINARY in host.files
    ensures LocateBinary(host).Success? ==> LocateBinary(host).value == host.files[host.dir + LINUX_BINARY]
  {
  }

  /** The process slot shared by every `Chrome` instance (PHP's `static $process`). */
  class ProcessSlot {
    var process: Option<Process>
    /** How many processes have ever been created for this slot. */
    ghost var spawns: nat

    /** The slot is filled exactly when one process has been created, and never more. */
    ghost predicate Valid()
      reads this
    {
      spawns == (if process.Some? then 1 else 0)
    }

    constructor ()
      ensures Valid() && process == None && spawns == 0
    {
      process := None;
      spawns := 0;
    }
  }

  /** The WebDriver session handle (`RemoteWebDriver`), reduced to what it was created with. */
  class Session {
    const url: string
    /** The chromedriver switches carried by the session's capabilities. */
    const options: seq<string>
    var closed: bool

    constructor Create(url: string, options: seq<string>)
      ensures this.url == url && this.options == options && !closed
    {
      this.url := url;
      this.options := options;
      closed := false;
    }

    /** `quit()`: end the remote session. */
    method Quit()
      modifies this
      ensures closed
    {
      closed := true;
    }
  }

  class Chrome {
    var driver: Session?
    /** The switches handed to the `ChromeOptions` object so far. */
    var chromeOptions: seq<string>
    var arguments: ArgMap
    const slot: ProcessSlot

    /** A live session implies the shared process slot has been filled. */
    ghost predicate Valid()
      reads this, slot
    {
      slot.Valid() && (driver != null ==> slot.process.Some?)
    }

    constructor (slot: ProcessSlot)
      requires slot.Valid()
      ensures Valid() && this.slot == slot
      ensures driver == null && chromeOptions == [] && arguments == DEFAULTS
    {
      this.slot := slot;
      driver := null;
      chromeOptions := [];
      arguments := DEFAULTS;
    }

    /** `addArgument()`: record a switch, unless a session already exists. */
    method AddArgument(arg: string, value: Option<string>)
      modifies this`arguments
      ensures old(driver) == null ==> arguments == Put(old(arguments), arg, value)
      ensures old(driver) != null ==> arguments == old(arguments)
    {
      if driver == null {
        arguments := Put(arguments, arg, value);
      }
    }

    /** `start()`: the cached session, or a new one over a (possibly new) process. */
    method Start(host: Host) returns (r: Result<Session, StartError>)
      requires Valid()
      modifies this, slot
      ensures Valid() && arguments == old(arguments)
      // the fast path: the same handle, nothing else touched
      ensures old(driver) != null ==>
        r == Success(old(driver)) && driver == old(driver) && chromeOptions == old(chromeOptions)
        && slot.process == old(slot.process) && slot.spawns == old(slot.spawns)
      // no binary and no process yet: the exception leaves everything as it was
      ensures old(driver) == null && old(slot.process).None? && LocateBinary(host).Failure? ==>
        r == Failure(LocateBinary(host).error) && driver == null && chromeOptions == old(chromeOptions)
        && slot.process == None && slot.spawns == old(slot.spawns)
      // otherwise: a process is there (spawned only if the slot was empty),
      // the switches are appended once, and a session is requested
      ensures old(driver) == null && (old(slot.process).Some? || LocateBinary(host).Success?) ==>
        slot.process == (if old(slot.process).Some? then old(slot.process)
                             else Some(Process([LocateBinary(host).value, ""], true)))
        && chromeOptions == old(chromeOptions) + Flags(arguments)
        && (host.grantsSession ==>
              r.Success? && driver == r.value && fresh(driver)
              && driver.url == ENDPOINT && driver.options == chromeOptions && !driver.closed)
        && (!host.grantsSession ==> r == Failure(SessionRefused) && driver == null)
    {
      if driver != null {
        return Success(driver);
      }
      var started := StartProcess(host);
      if started.Fail? {
        return Failure(started.error);
      }
      var flags := ParseArguments();
      chromeOptions := chromeOptions + flags;
      if !host.grantsSession {
        return Failure(SessionRefused);
      }
      driver := new Session.Create(ENDPOINT, chromeOptions);
      r := Success(driver);
    }

    /** `stop()`: quit the session, then stop the shared process if there is one. */
    method Stop() returns (r: Outcome<StopError>)
      requires Valid()
      modifies driver, slot
      ensures Valid() && slot.spawns == old(slot.spawns)
      ensures old(driver) == null ==> r == Fail(NoSession) && slot.process == old(slot.process)
      ensures old(driver) != null ==>
        r == Pass && driver.closed
        && slot.process == (if old(slot.process).Some?
                                then Some(old(slot.process).value.(running := false)) else None)
    {
      if driver == null {
        return Fail(NoSession);
      }
      driver.Quit();
      StopProcess();
      r := Pass;
    }

    /** `getProcess()`: the shared slot's content. */
    method GetProcess() returns (p: Option<Process>)
      ensures p == slot.process
    {
      p := slot.process;
    }

    /** `startProcess()`: spawn `[binary, ""]` unless the shared slot is already filled. */
    method StartProcess(host: Host) returns (r: Outcome<StartError>)
      requires slot.Valid()
      modifies slot
      ensures slot.Valid()
      ensures old(slot.process).Some? ==>
        r == Pass && slot.process == old(slot.process) && slot.spawns == old(slot.spawns)
      ensures old(slot.process).None? && LocateBinary(host).Failure? ==>
        r == Fail(LocateBinary(host).error) && slot.process == None && slot.spawns == old(slot.spawns)
      ensures old(slot.process).None? && LocateBinary(host).Success? ==>
        r == Pass && slot.process == Some(Process([LocateBinary(host).value, ""], true))
    {
      if slot.process.Some? {
        return Pass;
      }
      var binary := LocateBinary(host);
      if binary.Failure? {
        return Fail(binary.error);
      }
      slot.process := Some(Process([binary.value, ""], false));
      slot.spawns := slot.spawns + 1;
      slot.process := Some(slot.process.value.(running := true));
      r := Pass;
    }

    /** `stopProcess()`: stop the shared process if the slot holds one; the slot keeps it. */
    method StopProcess()
      requires slot.Valid()
      modifies slot
      ensures slot.Valid() && slot.spawns == old(slot.spawns)
      ensures slot.process == (if old(slot.process).Some?
                                   then Some(old(slot.process).value.(running := false)) else None)
    {
      if slot.process.Some? {
        slot.process := Some(slot.process.value.(running := false));
      }
    }

    /** `parseArguments()`: one switch per argument, in the map's order. */
    method ParseArguments() returns (flags: seq<string>)
      ensures flags == Flags(arguments)
    {
      flags := [];
      var i := 0;
      while i < |arguments|
        invariant 0 <= i <= |arguments|
        invariant flags == Flags(arguments[..i])
      {
        var arg := arguments[i];
        if arg.value.None? {
          flags := flags + ["--" + arg.name];
        } else {
          flags := flags + ["--" + arg.name + "=" + arg.value.value];
        }
        assert arguments[..i + 1][..i] == arguments[..i];
        i := i + 1;
      }
      assert arguments[..i] == arguments;
    }
  }
}
