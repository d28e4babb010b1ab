/** The decision logic of the numerai CLI "doctor": credential checks, the
    Windows edition probe, and the classifier that turns the stderr bytes of a
    failed docker command into one piece of platform-specific advice.

    Everything the Python code reads from the process (sys.platform,
    os.environ, platform.win32_ver(), the registry, the network) is an explicit
    input here, and every `raise` becomes a returned value. */
module Doctor {
  import opened Wrappers
  import opened Substring

  // Values of sys.platform the code distinguishes. Python 3 on Linux reports
  // "linux"; the code only knows the Python 2 spelling "linux2".
  const Win32 := "win32"
  const Darwin := "darwin"
  const Linux2 := "linux2"

  /** The environment variable whose presence means Docker Toolbox is installed. */
  const ToolboxInstallPath := "DOCKER_TOOLBOX_INSTALL_PATH"
  /** platform.win32_ver()[0] on Windows 10. */
  const Windows10 := "10"
  /** The registry EditionID of Windows 10 Pro. */
  const ProfessionalEdition := "Professional"

  // The byte strings root_cause looks for, in the order it tests them.
  const NotRecognized := AsciiBytes("is not recognized as an internal or external command")
  const CommandNotFound := AsciiBytes("command not found")
  const DaemonMayBeDown := AsciiBytes("This error may also indicate that the docker daemon is not running")
  const IsDaemonRunning := AsciiBytes("Is the docker daemon running")
  const InvalidModeOptPlan := AsciiBytes("invalid mode: /opt/plan")
  const DriveNotShared := AsciiBytes("Drive has not been shared")
  const NoConfigurationFiles := AsciiBytes("No configuration files")

  /** The marker in the S3 exception text of an account that has not finished signing up. */
  const NotSignedUp := "NotSignedUp"

  /** What the doctor reads from the machine it runs on.
      `editionId` is the outcome of reading EditionID under
      HKLM\SOFTWARE\Microsoft\Windows NT\CurrentVersion: the value, or the
      text of the exception the registry read raises. `environ` is the
      mapping as os.environ presents it; on Windows that mapping upper-cases
      its keys, so a membership test there ignores the letter case the
      variable was set with. */
  datatype Host = Host(
    platform: string,
    win32Version: string,
    editionId: Result<string, string>,
    environ: map<string, string>)

  /** One tag per advisory message the doctor can raise. */
  datatype Advice =
    | InstallDockerDesktop        // "is not recognized", Windows 10 Pro
    | InstallDockerToolbox        // "is not recognized", other Windows
    | InstallWithBrew             // "command not found" on macOS
    | PutDockerOnPath             // "command not found" elsewhere
    | StartDockerDesktop          // daemon down on macOS, or Windows without Toolbox
    | JoinDockerGroup             // daemon down or socket refused on linux2
    | StartQuickstartTerminal     // daemon down on Windows with Toolbox
    | RerunFromQuickstartTerminal // "invalid mode: /opt/plan" on Windows
    | ShareWorkingDrive           // "Drive has not been shared"
    | RunUnderHome                // "No configuration files"
    | FinishAwsSignup             // AWS account not finished signing up
    | CheckAwsKeys                // any other AWS failure
    | CheckNumeraiKeys            // any Numerai failure

  /** What one call of root_cause ends with: an advisory exception, an
      exception escaping from the registry read, or a normal return after the
      captured bytes were reported as unidentified. */
  datatype Outcome =
    | Raised(advice: Advice)
    | RegistryFailure(error: string)
    | Unidentified(err: seq<Byte>)

  /** is_win10_professional: false off win32 without consulting anything else;
      on win32 the registry is read only when the version is "10", and an
      exception from that read propagates. */
  function IsWin10Professional(platform: string, version: string, editionId: Result<string, string>): (r: Result<bool, string>)
    ensures r == Success(true) <==> platform == Win32 && version == Windows10 && editionId == Success(ProfessionalEdition)
    ensures r.Failure? <==> platform == Win32 && version == Windows10 && editionId.Failure?
    ensures r.Failure? ==> r == Failure(editionId.error)
  {
    if platform != Win32 then
      Success(false)
    else if version == Windows10 then
      match editionId
      case Success(id) => Success(id == ProfessionalEdition)
      case Failure(e) => Failure(e)
    else
      Success(false)
  }

  // The six tests of root_cause. Each yields None when its substring is
  // absent or its platform condition fails (the code then goes on to the next
  // test), and Some(outcome) when it ends the call.

  function NotRecognizedTest(err: seq<Byte>, host: Host): Option<Outcome> {
    if Contains(err, NotRecognized) && host.platform == Win32 then
      Some(match IsWin10Professional(host.platform, host.win32Version, host.editionId)
           case Success(true) => Raised(InstallDockerDesktop)
           case Success(false) => Raised(InstallDockerToolbox)
           case Failure(e) => RegistryFailure(e))
    else
      None
  }

  function CommandNotFoundTest(err: seq<Byte>, host: Host): Option<Outcome> {
    if Contains(err, CommandNotFound) then
      Some(Raised(if host.platform == Darwin then InstallWithBrew else PutDockerOnPath))
    else
      None
  }

  function DaemonTest(err: seq<Byte>, host: Host): Option<Outcome> {
    if Contains(err, DaemonMayBeDown) || Contains(err, IsDaemonRunning) then
      if host.platform == Darwin then
        Some(Raised(StartDockerDesktop))
      else if host.platform == Linux2 then
        Some(Raised(JoinDockerGroup))
      else if host.platform == Win32 then
        Some(Raised(if ToolboxInstallPath in host.environ then StartQuickstartTerminal else StartDockerDesktop))
      else
        None
    else
      None
  }

  function InvalidModeTest(err: seq<Byte>, host: Host): Option<Outcome> {
    if Contains(err, InvalidModeOptPlan) && host.platform == Win32 then
      Some(Raised(RerunFromQuickstartTerminal))
    else
      None
  }

  function DriveNotSharedTest(err: seq<Byte>): Option<Outcome> {
    if Contains(err, DriveNotShared) then Some(Raised(ShareWorkingDrive)) else None
  }

  function NoConfigurationFilesTest(err: seq<Byte>): Option<Outcome> {
    if Contains(err, NoConfigurationFiles) then Some(Raised(RunUnderHome)) else None
  }

  /** The tests of root_cause applied to one input, in source order. */
  function Tests(err: seq<Byte>, host: Host): (tests: seq<Option<Outcome>>)
    ensures |tests| == 6
  {
    [ NotRecognizedTest(err, host),
      CommandNotFoundTest(err, host),
      DaemonTest(err, host),
      InvalidModeTest(err, host),
      DriveNotSharedTest(err),
      NoConfigurationFilesTest(err) ]
  }

  /** The result of the earliest test that fired, or None when none did. */
  function FirstFired<T>(tests: seq<Option<T>>): (r: Option<T>)
    ensures r.None? <==> forall k | 0 <= k < |tests| :: tests[k].None?
    ensures r.Some? ==> exists k | 0 <= k < |tests| :: tests[k] == r && forall j | 0 <= j < k :: tests[j].None?
  {
    if tests == [] then
      None
    else if tests[0].Some? then
      tests[0]
    else
      assert forall k | 1 <= k < |tests| :: tests[k] == tests[1..][k - 1];
      FirstFired(tests[1..])
  }

  /** How a run of root_cause ends once the tests are evaluated: the first
      test that fired decides; if none did, the bytes are reported. */
  function Conclude(tests: seq<Option<Outcome>>, err: seq<Byte>): Outcome {
    match FirstFired(tests)
    case Some(o) => o
    case None => Unidentified(err)
  }

  /** root_cause(err_msg) on the given host. */
  function RootCause(err: seq<Byte>, host: Host): (r: Outcome)
    ensures r.Unidentified? ==> r.err == err
    ensures r.RegistryFailure? ==>
              && Contains(err, NotRecognized)
              && host.platform == Win32
              && host.win32Version == Windows10
              && host.editionId == Failure(r.error)
  {
    Conclude(Tests(err, host), err)
  }

  /** check_aws_validity, given how its `try` block ended: creating the boto3
      S3 client and calling list_buckets either both succeed, or one of them
      raises an Exception whose str() is the failure text. */
  function CheckAwsValidity(attempt: Result<(), string>): (r: Result<bool, Advice>)
    ensures r == Success(true) <==> attempt.Success?
    ensures r == Failure(FinishAwsSignup) <==> attempt.Failure? && Contains(attempt.error, NotSignedUp)
    ensures r == Failure(CheckAwsKeys) <==> attempt.Failure? && !Contains(attempt.error, NotSignedUp)
  {
    match attempt
    case Success(_) => Success(true)
    case Failure(text) => if Contains(text, NotSignedUp) then Failure(FinishAwsSignup) else Failure(CheckAwsKeys)
  }

  /** check_numerai_validity, given how its `try` block ended: creating the
      NumerAPI client and calling get_account either both succeed, or one of
      them raises an Exception. */
  function CheckNumeraiValidity(attempt: Result<(), string>): (r: Result<bool, Advice>)
    ensures r == Success(true) <==> attempt.Success?
    ensures r == Failure(CheckNumeraiKeys) <==> attempt.Failure?
  {
    match attempt
    case Success(_) => Success(true)
    case Failure(_) => Failure(CheckNumeraiKeys)
  }
}

/** The text of each advisory message, without the red colour prefix. The
    indentation that the Python source's backslash-continued literals carry
    is collapsed to one space between words and dropped at the start and end
    of a line. The fragments that tell the messages apart are named
    constants. */
module Messages {
  import opened Substring
  import opened Doctor

  const DesktopWindowsUrl := "https://hub.docker.com/editions/community/docker-ce-desktop-windows"
  const ToolboxReleasesUrl := "https://github.com/docker/toolbox/releases"
  const QuickstartTerminal := "Docker Quickstart Terminal"
  const DockerDesktop := "Docker Desktop"
  const BrewCommand := "brew cask install docker"
  const DesktopMacUrl := "https://hub.docker.com/editions/community/docker-ce-desktop-mac"
  const PathVariable := "$PATH"
  const GroupCommand := "sudo groupadd docker; sudo usermod -aG docker $USER"
  const SharedDrivesUrl := "https://docs.docker.com/docker-for-windows/#shared-drives"
  const HomeExample := "C:\\Users\\$YOUR_NAME\\$ANY_FOLDER"
  const ResubscribeUrl := "https://portal.aws.amazon.com/billing/signup?type=resubscribe#/resubscribed"
  const PrerequisitesUrl := "https://github.com/numerai/numerai-cli/wiki/Prerequisites-Help"

  // The text around the fragments, in message order.
  const DownloadFrom := "Docker does not appear to be installed. Make sure to download/install docker from "
  const BeforePathNote := " \n"
  const AndRun := " and run \""
  const WhenDone := "\" when you're done. \n"
  const PathNote := "If you're sure docker is already installed, then for some reason it isn't in your PATH like expected. Restarting may fix it."
  const InstallItWith := "Docker does not appear to be installed. You can install it with `"
  const OrFrom := "` or from "
  const NotOnPath := "docker command not found. Please install docker and make sure that the `docker` command is in your "
  const DaemonStarted := "Docker daemon not running. Make sure you've started \""
  const RunAgain := "\" and then run this command again."
  const DaemonOrSocket := "Docker daemon not running or this user cannot acccess the docker socket. Make sure docker is running and that your user has permissions to run docker. On most systems, you can add your user to the docker group like so: `"
  const ThenRestart := "` and then restarting your computer."
  const ToolboxWrongTerminal := "It appears that you're running Docker Toolbox, but you're not using the \""
  const RerunSetup := "\". Please re-run `numerai setup` from that terminal."
  const ShareThroughDesktop := "It appears that you're running from a directory that isn't shared to your docker Daemon. Make sure your directory is shared through Docker Desktop: "
  const TryUnderHome := "It appears that you're running from a directory that isn't shared to your docker Daemon. Try running from a directory under your HOME, e.g. "
  const NotSignedUpYet := "Your AWS keys are valid, but the account is not finished signing up. You either need to update your credit card in AWS at "
  const WaitForVerification := ", or wait up to 24 hours for their verification process to complete."
  const AwsKeysInvalid := "AWS keys seem to be invalid. Make sure you've entered them correctly and that your user has the necessary permissions (see "
  const CloseParen := ")."
  const NumeraiKeysInvalid := "Numerai keys seem to be invalid. Make sure you've entered them correctly."

  /** `before + fragment + after`, a message known to mention `fragment`. */
  function Spliced(before: string, fragment: string, after: string): (r: string)
    ensures Contains(r, fragment)
  {
    ContainsInfix(before, fragment, after);
    before + fragment + after
  }

  /** A splice also mentions whatever its tail mentions. */
  lemma SplicedKeepsTail(before: string, fragment: string, after: string, n: string)
    requires Contains(after, n)
    ensures Contains(Spliced(before, fragment, after), n)
  {
    ContainsExtended(before + fragment, after, [], n);
  }

  // The messages, one per advice.
  const DesktopDownloadMessage := Spliced(DownloadFrom, DesktopWindowsUrl, Spliced(BeforePathNote, PathNote, ""))
  const ToolboxDownloadMessage :=
    Spliced(DownloadFrom, ToolboxReleasesUrl, Spliced(AndRun, QuickstartTerminal, Spliced(WhenDone, PathNote, "")))
  const BrewMessage := Spliced(InstallItWith, BrewCommand, Spliced(OrFrom, DesktopMacUrl, ""))
  const NotOnPathMessage := Spliced(NotOnPath, PathVariable, "")
  const StartDesktopMessage := Spliced(DaemonStarted, DockerDesktop, RunAgain)
  const DockerGroupMessage := Spliced(DaemonOrSocket, GroupCommand, ThenRestart)
  const StartQuickstartMessage := Spliced(DaemonStarted, QuickstartTerminal, RunAgain)
  const WrongTerminalMessage := Spliced(ToolboxWrongTerminal, QuickstartTerminal, RerunSetup)
  const ShareDriveMessage := Spliced(ShareThroughDesktop, SharedDrivesUrl, "")
  const UnderHomeMessage := Spliced(TryUnderHome, HomeExample, "")
  const AwsSignupMessage := Spliced(NotSignedUpYet, ResubscribeUrl, WaitForVerification)
  const AwsKeysMessage := Spliced(AwsKeysInvalid, PrerequisitesUrl, CloseParen)

  /** The text of the advisory message for `a`. */
  function Message(a: Advice): string {
    match a
    case InstallDockerDesktop => DesktopDownloadMessage
    case InstallDockerToolbox => ToolboxDownloadMessage
    case InstallWithBrew => BrewMessage
    case PutDockerOnPath => NotOnPathMessage
    case StartDockerDesktop => StartDesktopMessage
    case JoinDockerGroup => DockerGroupMessage
    case StartQuickstartTerminal => StartQuickstartMessage
    case RerunFromQuickstartTerminal => WrongTerminalMessage
    case ShareWorkingDrive => ShareDriveMessage
    case RunUnderHome => UnderHomeMessage
    case FinishAwsSignup => AwsSignupMessage
    case CheckAwsKeys => AwsKeysMessage
    case CheckNumeraiKeys => NumeraiKeysInvalid
  }
}
