/** What the doctor's decisions guarantee: the order in which root_cause's
    tests are tried, what each test decides once it is reached, how a failing
    platform condition hands over to the next test, the complete decision on
    each platform, and which message text each piece of advice carries. */
module DoctorProperties {
  import opened Wrappers
  import opened Substring
  import opened Doctor
  import opened Messages

  /** A test whose substring and platform condition do not both hold ends
      nothing: root_cause goes on exactly as if it began at the next test. */
  lemma RootCauseFallsThrough(err: seq<Byte>, host: Host, k: nat)
    requires k <= 6
    requires forall j | 0 <= j < k :: Tests(err, host)[j].None?
    ensures RootCause(err, host) == Conclude(Tests(err, host)[k..], err)
  {
  }

  /** First match wins: the earliest test that fires decides the outcome, so
      any later test that would also fire cannot change it. */
  lemma RootCauseFirstMatchWins(err: seq<Byte>, host: Host, k: nat)
    requires k < 6 && Tests(err, host)[k].Some?
    requires forall j | 0 <= j < k :: Tests(err, host)[j].None?
    ensures RootCause(err, host) == Tests(err, host)[k].value
  {
  }

  /** Off win32 the "is not recognized" phrase is inert: root_cause decides as
      if its first test did not exist. */
  lemma NotRecognizedOffWin32FallsThrough(err: seq<Byte>, host: Host)
    requires host.platform != Win32
    ensures RootCause(err, host) == Conclude(Tests(err, host)[1..], err)
  {
  }

  /** "is not recognized ..." on win32 always raises: Docker Desktop advice on
      Windows 10 Pro, Docker Toolbox advice on every other edition or version,
      and the registry's own exception if reading the edition fails. */
  lemma RootCauseNotRecognizedOnWin32(err: seq<Byte>, host: Host)
    requires Contains(err, NotRecognized) && host.platform == Win32
    ensures host.win32Version != Windows10 ==> RootCause(err, host) == Raised(InstallDockerToolbox)
    ensures host.win32Version == Windows10 && host.editionId == Success(ProfessionalEdition) ==>
              RootCause(err, host) == Raised(InstallDockerDesktop)
    ensures host.win32Version == Windows10 && host.editionId.Success? && host.editionId.value != ProfessionalEdition ==>
              RootCause(err, host) == Raised(InstallDockerToolbox)
    ensures host.win32Version == Windows10 && host.editionId.Failure? ==>
              RootCause(err, host) == RegistryFailure(host.editionId.error)
  {
  }

  /** Once reached, "command not found" always raises: brew / Docker for Mac
      advice on darwin, the generic $PATH advice everywhere else. */
  lemma RootCauseCommandNotFound(err: seq<Byte>, host: Host)
    requires !(Contains(err, NotRecognized) && host.platform == Win32)
    requires Contains(err, CommandNotFound)
    ensures RootCause(err, host) == Raised(if host.platform == Darwin then InstallWithBrew else PutDockerOnPath)
  {
    RootCauseFirstMatchWins(err, host, 1);
  }

  /** Once reached, either daemon phrase alone enters the daemon test, which
      raises on darwin, linux2 and win32 and falls through anywhere else. */
  lemma RootCauseDaemon(err: seq<Byte>, host: Host)
    requires !(Contains(err, NotRecognized) && host.platform == Win32)
    requires !Contains(err, CommandNotFound)
    requires Contains(err, DaemonMayBeDown) || Contains(err, IsDaemonRunning)
    ensures host.platform == Darwin ==> RootCause(err, host) == Raised(StartDockerDesktop)
    ensures host.platform == Linux2 ==> RootCause(err, host) == Raised(JoinDockerGroup)
    ensures host.platform == Win32 && ToolboxInstallPath in host.environ ==>
              RootCause(err, host) == Raised(StartQuickstartTerminal)
    ensures host.platform == Win32 && ToolboxInstallPath !in host.environ ==>
              RootCause(err, host) == Raised(StartDockerDesktop)
    ensures host.platform !in {Darwin, Linux2, Win32} ==>
              RootCause(err, host) == Conclude(Tests(err, host)[3..], err)
  {
    RootCauseFallsThrough(err, host, 2);
  }

  /** Once reached, the two shared-directory phrases raise on every platform. */
  lemma RootCauseSharedDirectory(err: seq<Byte>, host: Host)
    requires !(Contains(err, NotRecognized) && host.platform == Win32)
    requires !Contains(err, CommandNotFound)
    requires !((Contains(err, DaemonMayBeDown) || Contains(err, IsDaemonRunning)) && host.platform in {Darwin, Linux2, Win32})
    requires !(Contains(err, InvalidModeOptPlan) && host.platform == Win32)
    requires Contains(err, DriveNotShared) || Contains(err, NoConfigurationFiles)
    ensures RootCause(err, host) == Raised(if Contains(err, DriveNotShared) then ShareWorkingDrive else RunUnderHome)
  {
    PlatformDecision(err, host);
  }

  /** root_cause returns normally, reporting the bytes it was given, exactly
      when none of its six tests fires. */
  lemma RootCauseUnidentified(err: seq<Byte>, host: Host)
    ensures RootCause(err, host) == Unidentified(err) <==>
              && !(Contains(err, NotRecognized) && host.platform == Win32)
              && !Contains(err, CommandNotFound)
              && !((Contains(err, DaemonMayBeDown) || Contains(err, IsDaemonRunning)) && host.platform in {Darwin, Linux2, Win32})
              && !(Contains(err, InvalidModeOptPlan) && host.platform == Win32)
              && !Contains(err, DriveNotShared)
              && !Contains(err, NoConfigurationFiles)
  {
    PlatformDecision(err, host);
  }

  /** The complete decision on macOS. The Windows-only tests never fire. */
  lemma RootCauseOnDarwin(err: seq<Byte>, host: Host)
    requires host.platform == Darwin
    ensures RootCause(err, host) ==
              if Contains(err, CommandNotFound) then Raised(InstallWithBrew)
              else if Contains(err, DaemonMayBeDown) || Contains(err, IsDaemonRunning) then Raised(StartDockerDesktop)
              else if Contains(err, DriveNotShared) then Raised(ShareWorkingDrive)
              else if Contains(err, NoConfigurationFiles) then Raised(RunUnderHome)
              else Unidentified(err)
  {
    PlatformDecision(err, host);
  }

  /** The complete decision on Linux under Python 2 ("linux2"). */
  lemma RootCauseOnLinux2(err: seq<Byte>, host: Host)
    requires host.platform == Linux2
    ensures RootCause(err, host) ==
              if Contains(err, CommandNotFound) then Raised(PutDockerOnPath)
              else if Contains(err, DaemonMayBeDown) || Contains(err, IsDaemonRunning) then Raised(JoinDockerGroup)
              else if Contains(err, DriveNotShared) then Raised(ShareWorkingDrive)
              else if Contains(err, NoConfigurationFiles) then Raised(RunUnderHome)
              else Unidentified(err)
  {
    PlatformDecision(err, host);
  }

  /** The complete decision on every other platform, Python 3's "linux"
      included: the daemon phrases are inert there as well. */
  lemma RootCauseOnOtherPlatforms(err: seq<Byte>, host: Host)
    requires host.platform !in {Darwin, Linux2, Win32}
    ensures RootCause(err, host) ==
              if Contains(err, CommandNotFound) then Raised(PutDockerOnPath)
              else if Contains(err, DriveNotShared) then Raised(ShareWorkingDrive)
              else if Contains(err, NoConfigurationFiles) then Raised(RunUnderHome)
              else Unidentified(err)
  {
    PlatformDecision(err, host);
  }

  /** The complete decision on Windows. */
  lemma RootCauseOnWin32(err: seq<Byte>, host: Host)
    requires host.platform == Win32
    ensures RootCause(err, host) ==
              if Contains(err, NotRecognized) then
                if host.win32Version != Windows10 then Raised(InstallDockerToolbox)
                else match host.editionId
                  case Success(id) => Raised(if id == ProfessionalEdition then InstallDockerDesktop else InstallDockerToolbox)
                  case Failure(e) => RegistryFailure(e)
              else if Contains(err, CommandNotFound) then Raised(PutDockerOnPath)
              else if Contains(err, DaemonMayBeDown) || Contains(err, IsDaemonRunning) then
                Raised(if ToolboxInstallPath in host.environ then StartQuickstartTerminal else StartDockerDesktop)
              else if Contains(err, InvalidModeOptPlan) then Raised(RerunFromQuickstartTerminal)
              else if Contains(err, DriveNotShared) then Raised(ShareWorkingDrive)
              else if Contains(err, NoConfigurationFiles) then Raised(RunUnderHome)
              else Unidentified(err)
  {
    PlatformDecision(err, host);
  }

  /** Walks the six tests in order: the first that fires decides. */
  lemma PlatformDecision(err: seq<Byte>, host: Host)
    ensures RootCause(err, host) ==
              var t := Tests(err, host);
              if t[0].Some? then t[0].value
              else if t[1].Some? then t[1].value
              else if t[2].Some? then t[2].value
              else if t[3].Some? then t[3].value
              else if t[4].Some? then t[4].value
              else if t[5].Some? then t[5].value
              else Unidentified(err)
  {
  }

  /** Each test that fires on some captured bytes still fires, with the same
      outcome, once more output surrounds those bytes. */
  lemma TestsSurviveMoreOutput(left: seq<Byte>, err: seq<Byte>, right: seq<Byte>, host: Host, k: nat)
    requires k < 6 && Tests(err, host)[k].Some?
    ensures Tests(left + err + right, host)[k] == Tests(err, host)[k]
  {
    forall needle: seq<Byte> | Contains(err, needle) ensures Contains(left + err + right, needle) {
      ContainsExtended(left, err, right, needle);
    }
  }

  /** Whichever test decides, it is no later than any test that fires. */
  lemma RootCauseDecidedNoLater(err: seq<Byte>, host: Host, k: nat)
    requires k < 6 && Tests(err, host)[k].Some?
    ensures exists i | 0 <= i <= k :: Tests(err, host)[i].Some? && RootCause(err, host) == Tests(err, host)[i].value
  {
  }

  /** Recognised stderr stays recognised: if some test fires on the captured
      bytes, root_cause raises on any capture that contains them, and the test
      that decides is that one or an earlier one. */
  lemma RootCauseRecognisedStaysRecognised(left: seq<Byte>, err: seq<Byte>, right: seq<Byte>, host: Host, k: nat)
    requires k < 6 && Tests(err, host)[k].Some?
    ensures !RootCause(left + err + right, host).Unidentified?
    ensures exists i | 0 <= i <= k :: Tests(left + err + right, host)[i].Some? &&
              RootCause(left + err + right, host) == Tests(left + err + right, host)[i].value
  {
    TestsSurviveMoreOutput(left, err, right, host, k);
    RootCauseDecidedNoLater(left + err + right, host, k);
  }

  /** The "is not recognized" advice carries what tells its two messages
      apart: the Docker Desktop download, or the Toolbox releases and the
      Docker Quickstart Terminal, each followed by the PATH note. */
  lemma InstallAdviceMentions()
    ensures Contains(Message(InstallDockerDesktop), DesktopWindowsUrl)
    ensures Contains(Message(InstallDockerDesktop), PathNote)
    ensures Contains(Message(InstallDockerToolbox), ToolboxReleasesUrl)
    ensures Contains(Message(InstallDockerToolbox), QuickstartTerminal)
    ensures Contains(Message(InstallDockerToolbox), PathNote)
  {
    SplicedKeepsTail(DownloadFrom, DesktopWindowsUrl, Spliced(BeforePathNote, PathNote, ""), PathNote);
    var done := Spliced(WhenDone, PathNote, "");
    SplicedKeepsTail(AndRun, QuickstartTerminal, done, PathNote);
    SplicedKeepsTail(DownloadFrom, ToolboxReleasesUrl, Spliced(AndRun, QuickstartTerminal, done), QuickstartTerminal);
    SplicedKeepsTail(DownloadFrom, ToolboxReleasesUrl, Spliced(AndRun, QuickstartTerminal, done), PathNote);
  }

  /** "command not found" advice: brew and the Docker for Mac download on
      macOS, the $PATH hint elsewhere. */
  lemma CommandNotFoundAdviceMentions()
    ensures Contains(Message(InstallWithBrew), BrewCommand)
    ensures Contains(Message(InstallWithBrew), DesktopMacUrl)
    ensures Contains(Message(PutDockerOnPath), PathVariable)
  {
    SplicedKeepsTail(InstallItWith, BrewCommand, Spliced(OrFrom, DesktopMacUrl, ""), DesktopMacUrl);
  }

  /** The daemon advice: Docker Desktop, the exact groupadd / usermod
      command, or the Docker Quickstart Terminal. */
  lemma DaemonAdviceMentions()
    ensures Contains(Message(StartDockerDesktop), DockerDesktop)
    ensures Contains(Message(JoinDockerGroup), GroupCommand)
    ensures Contains(Message(StartQuickstartTerminal), QuickstartTerminal)
  {
  }

  /** The Toolbox-terminal and shared-directory advice: the Docker
      Quickstart Terminal, the shared-drives link, the example folder under
      HOME. */
  lemma SharedDirectoryAdviceMentions()
    ensures Contains(Message(RerunFromQuickstartTerminal), QuickstartTerminal)
    ensures Contains(Message(ShareWorkingDrive), SharedDrivesUrl)
    ensures Contains(Message(RunUnderHome), HomeExample)
  {
  }

  /** The AWS advice: the billing page for a pending signup, the
      prerequisites page for invalid keys. */
  lemma CredentialAdviceMentions()
    ensures Contains(Message(FinishAwsSignup), ResubscribeUrl)
    ensures Contains(Message(CheckAwsKeys), PrerequisitesUrl)
  {
  }

  /** On win32 the "is not recognized" advice always carries the PATH note,
      with the Docker Desktop download on Windows 10 Pro and the Toolbox
      releases and Quickstart Terminal on every other version or edition. */
  lemma NotRecognizedOnWin32Says(err: seq<Byte>, host: Host)
    requires Contains(err, NotRecognized) && host.platform == Win32
    requires host.win32Version == Windows10 ==> host.editionId.Success?
    ensures RootCause(err, host).Raised?
    ensures Contains(Message(RootCause(err, host).advice), PathNote)
    ensures host.win32Version == Windows10 && host.editionId == Success(ProfessionalEdition) ==>
              Contains(Message(RootCause(err, host).advice), DesktopWindowsUrl)
    ensures !(host.win32Version == Windows10 && host.editionId == Success(ProfessionalEdition)) ==>
              Contains(Message(RootCause(err, host).advice), ToolboxReleasesUrl) &&
              Contains(Message(RootCause(err, host).advice), QuickstartTerminal)
  {
    RootCauseNotRecognizedOnWin32(err, host);
    InstallAdviceMentions();
  }

  /** On darwin, a "command not found" that reaches its test is answered
      with the brew command and the Docker for Mac download. */
  lemma CommandNotFoundOnDarwinSays(err: seq<Byte>, host: Host)
    requires host.platform == Darwin && Contains(err, CommandNotFound)
    ensures RootCause(err, host).Raised?
    ensures Contains(Message(RootCause(err, host).advice), BrewCommand)
    ensures Contains(Message(RootCause(err, host).advice), DesktopMacUrl)
  {
    RootCauseCommandNotFound(err, host);
    CommandNotFoundAdviceMentions();
  }

  /** On linux2, a daemon phrase that reaches its test is answered with the
      exact command that adds the user to the docker group. */
  lemma DaemonOnLinux2Says(err: seq<Byte>, host: Host)
    requires host.platform == Linux2
    requires !Contains(err, CommandNotFound)
    requires Contains(err, DaemonMayBeDown) || Contains(err, IsDaemonRunning)
    ensures RootCause(err, host).Raised?
    ensures Contains(Message(RootCause(err, host).advice), GroupCommand)
  {
    RootCauseDaemon(err, host);
    DaemonAdviceMentions();
  }
}
