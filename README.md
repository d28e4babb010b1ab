# numerai-cli doctor, modelled in Dafny

This project models the decision logic of the numerai CLI's `doctor` helpers
(`cli/doctor.py`):

- `root_cause(err_msg)` looks at the stderr bytes of a failed docker command.
  It runs six byte-substring tests in a fixed order, and most of them are
  guarded by a `sys.platform` condition. The first test whose substring and
  platform condition both hold raises one advisory message. If none fires,
  it reports the bytes as unidentified and returns normally.
- `is_win10_professional()` decides between the Docker Desktop and Docker
  Toolbox advice on Windows.
- `check_aws_validity` and `check_numerai_validity` map how their `try`
  block ended to `True`, to the pending-signup advisory (AWS only, when the
  failure text contains `NotSignedUp`), or to an invalid-keys advisory.

Everything these functions read from the process is an explicit input:

- `sys.platform` is kept as a string, because the code tests for Python 2's
  `"linux2"` and never for Python 3's `"linux"`.
- `platform.win32_ver()[0]` is an input.
- The registry EditionID read is a `Result`: either the value or the text of
  the exception it raises.
- `os.environ` is a map, holding the keys as `os.environ` presents them. On
  Windows that mapping upper-cases its keys, so the
  `DOCKER_TOOLBOX_INSTALL_PATH` test matches whatever letter case the
  variable was set with.
- The `try` block of each credential check is a `Result<(), string>`. It
  covers creating the client (`boto3.client`, `numerapi.NumerAPI`) and the
  network call (`list_buckets`, `get_account`). A failure stands for an
  `Exception` raised by any of them and carries its `str()`.

Every `raise` becomes a returned value. `RootCause` returns an `Outcome` with
three cases:

- `Raised(advice)`: the tagged advisory message.
- `RegistryFailure(error)`: the registry exception, which escapes both
  `is_win10_professional` and `root_cause`.
- `Unidentified(err)`: the normal return.

Modules:

- `Wrappers`: `Option` and `Result`.
- `Substring`: bytes, the `in` containment test as a predicate, and a
  loop-based search `Find` proved against it.
- `Doctor`: the host context, the advice tags, the six tests, `RootCause`,
  `IsWin10Professional` and the two credential checks.
- `Messages`: the text of each advisory message, built around named
  fragments such as the `groupadd`/`usermod` command.
- `DoctorProperties`: the lemmas.

The tests are modelled as an ordered table (`Doctor.Tests`). Each entry is
`None` when its substring is absent or its platform condition fails, and
`Some(outcome)` when it ends the call. `Doctor.FirstFired` picks the
earliest entry that fired. This is the code's behaviour: a failing inner
platform check does not stop `root_cause`, which goes on to the later tests.

Three details of the code that the model keeps:

- The registry read is not fail-soft: an exception from it propagates
  (`RegistryFailure`).
- The Windows 10 Pro advice names the `docker-ce-desktop-windows` download
  URL and does not contain the words "Docker Desktop".
- The other Windows advice names the `docker/toolbox` releases URL and the
  "Docker Quickstart Terminal", not "Docker Toolbox".

The file uses f-strings, so it needs Python 3.6 or later. On those versions
Linux reports `"linux"`, so the `linux2` daemon advice cannot be reached
there. `DoctorProperties.RootCauseOnOtherPlatforms` states what the code then
does: the daemon phrases are ignored.

## Model

| member | source | states |
|---|---|---|
| `Substring.Find` | cli/doctor.py:65 | the byte-substring test (`b'...' in err_msg`) as a left-to-right search: it returns None exactly when the needle does not occur, and otherwise the position of the first occurrence |
| `Doctor.IsWin10Professional` | cli/doctor.py:46-59 | true exactly on win32, version "10", EditionID "Professional"; off win32 it is false whatever the version or edition; a registry exception propagates, and only when win32 and version "10" cause the registry to be read |
| `Doctor.NotRecognizedTest` | cli/doctor.py:65-78 | the first test: fires exactly when the bytes contain "is not recognized as an internal or external command" on win32, with the Docker Desktop advice on Windows 10 Pro, the Toolbox advice otherwise, or the registry exception |
| `Doctor.CommandNotFoundTest` | cli/doctor.py:80-88 | the second test: fires on "command not found" on every platform, with the brew advice on darwin and the `$PATH` advice elsewhere |
| `Doctor.DaemonTest` | cli/doctor.py:90-107 | the third test: either daemon phrase, on darwin, linux2 or win32 (by `DOCKER_TOOLBOX_INSTALL_PATH`); on any other platform it does not fire |
| `Doctor.InvalidModeTest` | cli/doctor.py:109-113 | the fourth test: "invalid mode: /opt/plan" on win32 only |
| `Doctor.DriveNotSharedTest` | cli/doctor.py:115-118 | the fifth test: "Drive has not been shared" on every platform |
| `Doctor.NoConfigurationFilesTest` | cli/doctor.py:120-124 | the sixth test: "No configuration files" on every platform |
| `Doctor.Tests` | cli/doctor.py:64-124 | the six tests applied to one capture, in source order |
| `Doctor.Conclude` | cli/doctor.py:126-127 | the first test that fired decides; when none fired, the call returns normally after reporting the bytes |
| `Doctor.FirstFired` | cli/doctor.py:64-124 | none of the tests fired exactly when the result is None; otherwise the result is that of a test that fired with no earlier test firing |
| `Doctor.RootCause` | cli/doctor.py:64-127 | a normal return reports exactly the bytes it was given; a registry exception can only come from the "is not recognized" test on win32 with version "10" when the EditionID read fails |
| `Doctor.CheckAwsValidity` | cli/doctor.py:15-31 | `True` exactly when the `try` block (client creation and `list_buckets`) succeeds; the pending-signup advice exactly when the failure text contains `NotSignedUp`; the invalid-keys advice exactly for every other failure |
| `Doctor.CheckNumeraiValidity` | cli/doctor.py:34-43 | `True` exactly when the `try` block (client creation and `get_account`) succeeds; the Numerai invalid-keys advice exactly on any failure |
| `DoctorProperties.RootCauseFallsThrough` | cli/doctor.py:64-124 | when the first k tests do not fire, root_cause ends exactly as if it began at test k |
| `DoctorProperties.RootCauseFirstMatchWins` | cli/doctor.py:64-124 | the earliest test that fires decides the outcome, so later matching substrings cannot change it |
| `DoctorProperties.NotRecognizedOffWin32FallsThrough` | cli/doctor.py:65-66 | off win32 the "is not recognized" phrase is ignored: the outcome is that of the remaining five tests |
| `DoctorProperties.RootCauseNotRecognizedOnWin32` | cli/doctor.py:65-78 | "is not recognized" on win32 always ends the call. It gives the Docker Desktop advice on version "10" with EditionID "Professional". It gives the Toolbox advice on any other version or edition. It gives the registry exception when the EditionID read fails |
| `DoctorProperties.RootCauseCommandNotFound` | cli/doctor.py:80-88 | once reached, "command not found" always raises: the brew advice on darwin, the generic $PATH advice on every other platform |
| `DoctorProperties.RootCauseDaemon` | cli/doctor.py:90-107 | once reached, either daemon phrase alone enters the daemon test. It gives Docker Desktop on darwin and the docker-group advice on linux2. On win32 it gives the Quickstart Terminal when `DOCKER_TOOLBOX_INSTALL_PATH` is set and Docker Desktop otherwise. On any other platform the call goes on to the later tests |
| `DoctorProperties.RootCauseSharedDirectory` | cli/doctor.py:115-124 | once reached, "Drive has not been shared" and then "No configuration files" raise their shared-directory advice on every platform |
| `DoctorProperties.RootCauseUnidentified` | cli/doctor.py:64-127 | root_cause returns normally with the original bytes exactly when no test's substring and platform condition both hold |
| `DoctorProperties.RootCauseOnDarwin` | cli/doctor.py:64-127 | the complete decision on darwin, where the two win32-only tests never fire |
| `DoctorProperties.RootCauseOnLinux2` | cli/doctor.py:64-127 | the complete decision on linux2 |
| `DoctorProperties.RootCauseOnOtherPlatforms` | cli/doctor.py:64-127 | the complete decision on any platform other than darwin, linux2 and win32 (Python 3's "linux" included): only "command not found" and the two shared-directory phrases can raise |
| `DoctorProperties.RootCauseOnWin32` | cli/doctor.py:64-127 | the complete decision on win32, all six tests in order |
| `DoctorProperties.TestsSurviveMoreOutput` | cli/doctor.py:64-124 | a test that fires on some bytes fires with the same outcome when more output surrounds them |
| `DoctorProperties.RootCauseDecidedNoLater` | cli/doctor.py:64-124 | when test k fires, root_cause is decided by test k or by an earlier one |
| `DoctorProperties.RootCauseRecognisedStaysRecognised` | cli/doctor.py:64-124 | if test k fires on some bytes, root_cause raises on any capture containing them, and it is decided by test k or an earlier one |
| `Substring.Contains` | cli/doctor.py:65 | Python's `needle in hay` on bytes and on str, used by every test of root_cause (lines 65, 80, 90, 109, 115, 120) and by the `NotSignedUp` test (line 24): the needle occurs at some position of the haystack |
| `DoctorProperties.InstallAdviceMentions` | cli/doctor.py:68-78 | the Windows 10 Pro advice has the docker-ce-desktop-windows download URL; the other Windows advice has the docker/toolbox releases URL and the "Docker Quickstart Terminal"; both have the PATH note |
| `DoctorProperties.CommandNotFoundAdviceMentions` | cli/doctor.py:80-88 | the darwin advice has the `brew cask install docker` command and the Docker for Mac download URL; the generic advice names `$PATH` |
| `DoctorProperties.DaemonAdviceMentions` | cli/doctor.py:90-107 | the daemon advice names "Docker Desktop", the `sudo groupadd docker; sudo usermod -aG docker $USER` command, or the "Docker Quickstart Terminal" |
| `DoctorProperties.SharedDirectoryAdviceMentions` | cli/doctor.py:109-124 | the invalid-mode advice names the "Docker Quickstart Terminal"; the unshared-drive advice has the shared-drives link; the no-configuration advice has the example folder under HOME |
| `DoctorProperties.CredentialAdviceMentions` | cli/doctor.py:24-31 | the pending-signup advice has the AWS resubscribe billing URL; the invalid-keys advice has the prerequisites wiki URL |
| `Messages.Message` | cli/doctor.py:25-123 | the text raised for each advice tag, one text per `raise exception_with_msg(...)` of the credential checks and of root_cause; what each text points the user to is stated by the five `...AdviceMentions` lemmas |
| `DoctorProperties.NotRecognizedOnWin32Says` | cli/doctor.py:65-78 | on win32, when the EditionID read succeeds or is not needed, "is not recognized" raises a message with the PATH note and the Docker Desktop download on Windows 10 Pro, or the Toolbox releases URL and the "Docker Quickstart Terminal" otherwise |
| `DoctorProperties.CommandNotFoundOnDarwinSays` | cli/doctor.py:80-84 | on darwin, "command not found" raises a message with the brew command and the Docker for Mac download URL, whatever else the bytes contain |
| `DoctorProperties.DaemonOnLinux2Says` | cli/doctor.py:90-98 | on linux2, a daemon phrase without "command not found" raises a message containing `sudo groupadd docker; sudo usermod -aG docker $USER` |

## Left out

- The boto3 and numerapi client construction and the `list_buckets` and `get_account` network calls are not modelled. How each `try` block ended is an input `Result` (success, or the failure's text).
- The `Failure` input of `CheckAwsValidity` and `CheckNumeraiValidity` stands only for a failure that raises an `Exception` subclass. A `BaseException` that is not one (`KeyboardInterrupt`, `SystemExit`) is not caught by `except Exception` and propagates; the model does not represent it.
- `platform.win32_ver()` and the winreg read are not modelled. Their results are fields of `Host`. The model does not say that the version is only read on win32, because reading it has no effect the model can see.
- The unidentified path's two `print` calls are not modelled: the fixed notice on stdout, and `err_msg.decode('utf8')` on stderr. `Unidentified(err)` carries the raw bytes instead. A UTF-8 decoding failure on that path is not modelled.
- The `Fore.RED` prefix and the `click.ClickException` wrapper are not modelled. A raised message is its `Advice` tag.
- Message text: each run of indentation between two words that the backslash-continued literals embed is collapsed to one space. Three runs are dropped entirely: the indentation before "Docker does not appear" at the start of both Windows messages, the indentation after their `\n` (the `\n` is followed directly by "If you're"), and the trailing space and indentation before their closing quote.
- Python's `in` on `bytes` and `str` is modelled as the `Substring.Contains` predicate. `Substring.Find` is one way to compute it, not CPython's search algorithm.
