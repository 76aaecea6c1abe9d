# System health check: the alerting engine in Dafny

This project models the alerting engine of a host health monitor. The monitor
compares disk, CPU, RAM and GPU readings with configured thresholds. It sends
an email alert for each resource that crosses its threshold, and a cooldown
stops it re-alerting too soon. Delivery retries a bounded number of times, with
a delay capped by a wait-time policy. At startup a validator checks that the
configuration file holds every required section and option.

The repository carries two revisions of each piece. There is an older one at
the top level and a current one under `src/`. Both are modelled, one Dafny
module per source file. The older revision's modules have a `Legacy` prefix.

| module | source file | form |
|---|---|---|
| `TimeManager` | `src/time_manager.py`, `time_manager.py` (identical copies) | pure functions |
| `Smtp` | the `smtplib` exception classes the notifiers catch | datatype and subclass relation |
| `Retry` | the shared shape of both `send_alert` loops | reference function `Run` and lemmas |
| `Cooldown` | the shared shape of both `alert_format` gates | reference function `AlertStep` and lemmas |
| `EmailNotifier` | `src/notification_alerts/email_notifier.py` | class `Notifier` with a `map` field and loop methods |
| `LegacyNotifier` | `notifier.py` | class `Notifier` with a `map` field and loop methods |
| `SystemMonitor` | `src/system_monitors/system_monitor.py` | pure checks, loop methods, class `SystemMonitor` |
| `LegacySystemMonitor` | `system_monitor.py` | pure checks, loop method, class `SystemMonitor` |
| `ConfigReader` | `src/config_reader.py` | nested-loop method proved against a recursive function |
| `LegacyConfigReader` | `config_reader.py` | the same method over the older list |

Each method that contains a loop or changes state is proved equal to a reference function:

- `SendAlert` is proved equal to `Retry.Delivery`.
- `AlertFormat` is proved equal to `Cooldown.AlertStep`.
- `CheckGpu` is proved equal to `SystemMonitor.Breaches`.
- `CheckRequired` is proved equal to `ConfigReader.FirstMissing`.

The lemmas then characterise those functions completely.

How the outside world enters the model:

- **SMTP transport.** It is a function `transport: nat -> Smtp.Attempt`, giving how the i-th session ends: accepted, or raising one of the listed `smtplib` classes.
- **Recipient check.** The email validator's verdict on the recipient is a boolean input.
- **Clock.** `time.time()` becomes two integer inputs: `now` at the gate and `after` once the send returns.
- **Sleeps.** `time.sleep` is recorded in a ghost log of delays.
- **Exit.** `sys.exit(1)` is the outcome `Exit(1)`.
- **Probe readings.** They are `real` inputs.
- **Notifier calls from the monitors.** They are the sequence of `(resource_name, threshold)` alerts each check returns.
- **NVML query.** It is either an error or one optional name per device, where `None` means reading that name raised an NVML error.
- **Configuration file.** It is a map from section name to the set of option names it holds.

Where the documented intent and the code differ, the model follows the code. For example, the class docstring at src/notification_alerts/email_notifier.py:18-21 describes retrying with a delay that does not exceed 12 hours, while the code replaces a longer delay by 1 hour. The behaviours the model takes from the code are:

- **Cooldown key.** It is the resource name alone, not the pair of device and resource.
- **Terminal errors.** Connect, disconnect and response errors end the call at once, like authentication and refused-recipient errors. They are not retried.
- **Exhausted retries.** After six retryable failures, `send_alert` exits the process with status 1. It does not report a failure to its caller.
- **First sighting.** The first time a resource name is seen, it is entered in the tracker at time 0. It is not treated as "never sent".
- **Long delays.** A delay above 12 hours is replaced by the 1-hour default. It is not clamped to 12 hours. Negative or smaller delays pass unchanged.
- **When the time is recorded.** It is recorded only when `send_alert` returns normally. When it raises or exits, nothing is recorded.

## Model

| member | source | states |
|---|---|---|
| TimeManager.FormatWaitTime | src/time_manager.py:13-20 | Seconds below 60 with the value unchanged; minutes in [60, 3600) with magnitude in [1, 60); hours from 3600 with magnitude at least 1; exactly one unit per input, and magnitude times the unit's seconds gives back the input (time_manager.py:13-20 is an identical copy) |
| TimeManager.EnforceMaxWaitTime | src/time_manager.py:23-28 | the result never exceeds 43200; a delay up to 43200 (inclusive) is unchanged; a larger one becomes 3600 (time_manager.py:23-28 is an identical copy) |
| TimeManager.EnforceIdempotent | src/time_manager.py:25-28 | enforcing the limit twice equals enforcing it once |
| TimeManager.EnforceSubstitutesDefault | src/time_manager.py:25-27 | above the limit the substitute is the 1-hour default and never the 12-hour ceiling |
| TimeManager.FormatExamples | src/time_manager.py:15-28 | boundary values 59, 60, 3599, 3600 and 43200 land as documented |
| TimeManager.EnforcedDisplayAtMostTwelveHours | src/time_manager.py:10-28 | an enforced delay displays as at most 12 hours |
| Smtp.AuthenticationIsResponse | notifier.py:98-103 | authentication and connect errors are also response exceptions; disconnection and refused recipients are not |
| Retry.Delivery | src/notification_alerts/email_notifier.py:64-77 | the message is built before the loop: an invalid recipient raises ValueError with no session opened and nothing slept, and only then; a valid recipient opens between 1 and 6 sessions |
| Retry.Run | src/notification_alerts/email_notifier.py:75-100 | the loop opens at most 6 sessions; the sleeps only grow, by at most one per session |
| Retry.RunSettlesAt | src/notification_alerts/email_notifier.py:79-97 | the first non-retryable session k settles the call after k sleeps of the delay and k+1 sessions |
| Retry.RunExhausts | src/notification_alerts/email_notifier.py:91-100 | only retryable failures ahead: exit(1) after the remaining sessions, one sleep each |
| Retry.RunExitsIff | src/notification_alerts/email_notifier.py:77-100 | the loop exits iff every remaining session fails retryably and the delay is non-negative; the exit status is 1 |
| Retry.RunSleepsWait | src/notification_alerts/email_notifier.py:93-96 | every delay slept is the enforced delay, and it is non-negative |
| Retry.DeliveryBounded | src/notification_alerts/email_notifier.py:74-100 | a whole call opens at most 6 sessions, sleeps at most once per session, and only sleeps the enforced delay |
| Retry.FirstSettledSessionDecides | src/notification_alerts/email_notifier.py:77-90 | success or a terminal failure on session k returns or raises at once, with k sleeps and no further session |
| Retry.RetryableFailuresExit | src/notification_alerts/email_notifier.py:91-100 | 6 retryable failures give exit(1) after exactly 6 sessions and 6 sleeps |
| Retry.DeliveryExitsIff | src/notification_alerts/email_notifier.py:74-100 | a call exits iff the recipient is valid, the delay can be slept and all 6 sessions fail retryably |
| Retry.NegativeDelayRejected | src/notification_alerts/email_notifier.py:96 | a negative delay makes the first retryable failure end the call with nothing slept |
| Cooldown.AlertStep | src/notification_alerts/email_notifier.py:102-120 | the send happens iff now minus the last time (0 for a new name) is strictly greater than the cooldown; only that name's entry changes; it becomes the post-send time after a delivered send and otherwise keeps the old time |
| Cooldown.NoRealertWithinCooldown | src/notification_alerts/email_notifier.py:112-117 | after a delivered alert, a later call is suppressed while at most the cooldown has passed since, and goes through once more has |
| Cooldown.FailedSendNotRecorded | src/notification_alerts/email_notifier.py:115-117 | a send that raised or exited leaves the last time unchanged |
| Cooldown.SuppressedOnlyInitialises | src/notification_alerts/email_notifier.py:106-120 | a suppressed call changes the tracker at most by entering a new name at 0 |
| EmailNotifier.Classify | src/notification_alerts/email_notifier.py:85-91 | retry iff a generic SMTPException or OSError; authentication gives the credentials message; connect, disconnect and response errors give the server-settings message; nothing is taken for a success |
| EmailNotifier.Notifier.constructor | src/notification_alerts/email_notifier.py:42 | the tracker starts empty |
| EmailNotifier.Notifier.SendAlert | src/notification_alerts/email_notifier.py:72-100 | outcome, session count and sleeps equal `Retry.Delivery` over the classified sessions and the enforced delay; at most 6 sessions; an exit happens after exactly 6, with status 1 |
| EmailNotifier.Notifier.AlertFormat | src/notification_alerts/email_notifier.py:102-120 | the new tracker and the gate's outcome equal `Cooldown.AlertStep` on the old tracker with this revision's send |
| EmailNotifier.TerminalFailureRaises | src/notification_alerts/email_notifier.py:85-90 | a terminal failure on session k raises SMTPError with its message after k+1 sessions and k sleeps |
| EmailNotifier.FirstSuccessReturns | src/notification_alerts/email_notifier.py:79-84 | the first accepted session k returns delivered, after k sleeps of the enforced delay |
| EmailNotifier.RetryableFailuresExit | src/notification_alerts/email_notifier.py:91-100 | six generic failures give exit(1) after six sleeps of the enforced delay, each at most 43200 |
| EmailNotifier.AuthFailureOnFirstSession | src/notification_alerts/email_notifier.py:85-86 | an authentication failure on the first session means one session and no sleep |
| LegacyNotifier.Classify | notifier.py:98-106 | authentication raises SMTPAuthError; connect or disconnect raises SMTPConnectError; any other response exception raises SMTPResponseError; refused recipients raise SMTPRecipientsRefusedError; a generic failure is retried |
| LegacyNotifier.FormatWaitTime | notifier.py:157-164 | agrees with `TimeManager.FormatWaitTime` on every input |
| LegacyNotifier.EnforceMaxWaitTime | notifier.py:166-171 | agrees with `TimeManager.EnforceMaxWaitTime` on every input |
| LegacyNotifier.Notifier.constructor | notifier.py:56 | the tracker starts with exactly the keys CPU, RAM, Disks, GPU Usage, GPU Memory Usage, GPU Temperature, all at 0 |
| LegacyNotifier.Notifier.SendAlert | notifier.py:86-115 | outcome, session count and sleeps equal `Retry.Delivery` under this revision's classification; at most 6 sessions; exit only after 6, with status 1 |
| LegacyNotifier.Notifier.AlertFormat | notifier.py:117-135 | the new tracker and the gate equal `Cooldown.AlertStep` on the old tracker |
| LegacyNotifier.TerminalFailureRaisesOwnType | notifier.py:98-105 | each terminal class raises its own error type on the session where it occurs, with no sleep for it and no further session |
| LegacyNotifier.RetryableFailuresExit | notifier.py:106-115 | six generic failures give exit(1) after six sleeps of the enforced delay |
| LegacyNotifier.RevisionsAgreeOnRetry | notifier.py:98-106 | both revisions retry and raise on the same classes |
| LegacyNotifier.ClauseOrderDecides | notifier.py:98-103 | the authentication and connect errors are response exceptions, yet their earlier clauses decide the error raised |
| SystemMonitor.Breaches | src/system_monitors/system_monitor.py:169-176 | at most one alert per metric; no alert iff no metric is breached |
| SystemMonitor.BreachesOfThree | src/system_monitors/system_monitor.py:169-176 | the three GPU tests append in order: utilization, memory, temperature |
| SystemMonitor.BreachesMembership | src/system_monitors/system_monitor.py:169-179 | an alert is raised iff some breached metric carries its name and threshold |
| SystemMonitor.CheckDisk | src/system_monitors/system_monitor.py:76-85 | unhealthy iff percent free is at most the threshold, equality included; exactly one "Disks" alert then, none otherwise |
| SystemMonitor.CheckCpu | src/system_monitors/system_monitor.py:100-109 | unhealthy iff usage is at least the threshold; exactly one "CPU" alert then, none otherwise |
| SystemMonitor.CheckRam | src/system_monitors/system_monitor.py:125-134 | unhealthy iff RAM used is at least the threshold; exactly one "RAM" alert then, none otherwise |
| SystemMonitor.CheckGpu | src/system_monitors/system_monitor.py:161-183 | notifies exactly the breached metrics in order ("GPU utilization", "GPU Memory Utilization", "GPU Temperature"); healthy iff none reached its threshold |
| SystemMonitor.CheckGpuPresence | src/system_monitors/system_monitor.py:208-225 | true iff some device name, ASCII lower-cased, starts with "nvidia" and no earlier device's name failed to read; any NVML error gives false |
| SystemMonitor.IsNvidia | src/system_monitors/system_monitor.py:218 | a name matches iff it has at least six characters and they lower-case to "nvidia" (system_monitor.py:204 is the same test) |
| SystemMonitor.PresenceExamples | src/system_monitors/system_monitor.py:218 | "NVIDIA GeForce RTX 3080" and "nvidia a100" match; "AMD Radeon" and "NVIDI" do not |
| SystemMonitor.SystemMonitor.constructor | src/system_monitors/system_monitor.py:206 | gpu_present is decided once, as the presence check |
| SystemMonitor.SystemMonitor.CheckHealth | src/system_monitors/system_monitor.py:227-243 | healthy iff disk, CPU and RAM are healthy and, when a GPU is present, the GPU is too; the alerts are those of every monitor in order, the GPU's only when present; healthy iff no alert |
| SystemMonitor.DiskCooldownScenario | src/system_monitors/system_monitor.py:81-82 | a disk at 4% free with threshold 5 alerts; with cooldown 300, a check 1 s after the delivered alert is suppressed and one 301 s after it alerts again |
| LegacySystemMonitor.CheckDisk | system_monitor.py:76-83 | unhealthy iff percent free is at most the threshold; one "Disks" alert then, none otherwise |
| LegacySystemMonitor.CheckCpu | system_monitor.py:98-105 | unhealthy iff usage is at least the threshold; one "CPU" alert then, none otherwise |
| LegacySystemMonitor.CheckRam | system_monitor.py:121-128 | unhealthy iff RAM used is at least the threshold; one "RAM" alert then, none otherwise |
| LegacySystemMonitor.CheckGpu | system_monitor.py:155-172 | notifies exactly the breached metrics in order ("GPU Usage", "GPU Memory Usage", "GPU Temperature"); healthy iff none reached its threshold |
| LegacySystemMonitor.GpuPresence | system_monitor.py:200-210 | the `any` is true iff some name reached before any failing one starts with "nvidia" after lower-casing; an NVML error gives false |
| LegacySystemMonitor.AnyNvidia | system_monitor.py:204-205 | the lazy `any` over the names is the reference existence predicate |
| LegacySystemMonitor.SystemMonitor.constructor | system_monitor.py:198 | a GPU monitor exists iff the presence check succeeds |
| LegacySystemMonitor.SystemMonitor.CheckHealth | system_monitor.py:212-223 | healthy iff disk, CPU, RAM and (when a GPU monitor exists) the GPU are healthy; without one the GPU counts as healthy and raises nothing |
| LegacySystemMonitor.AlertNamesAreTracked | system_monitor.py:80-165 | every alert name this revision raises is a key the same revision's tracker starts with |
| LegacySystemMonitor.RevisionsAgreeOnGpu | system_monitor.py:160-172 | both revisions raise the same number of GPU alerts on the same readings; they differ only in the names |
| ConfigReader.CheckRequired | src/config_reader.py:75-80 | the nested loops return exactly `FirstMissing`, and accept iff every required section and option is present |
| ConfigReader.ConfigValidator.constructor | src/config_reader.py:63-64 | the validator holds the configuration it was given |
| ConfigReader.ConfigValidator.ValidateConfig | src/config_reader.py:66-80 | the result is the first absence in the required list of this revision; accepted iff nothing required is absent |
| ConfigReader.OptionsValidIffPresent | src/config_reader.py:78-80 | the inner loop accepts iff every listed option is in the section |
| ConfigReader.ValidIffSatisfies | src/config_reader.py:75-80 | the validator accepts iff every required section is present with all its required options |
| ConfigReader.FirstAbsentOptionReported | src/config_reader.py:78-80 | the option reported is the first one in list order that the section lacks |
| ConfigReader.FirstAbsentSectionReported | src/config_reader.py:75-77 | when the earlier sections are complete, an absent section is reported before any of its options |
| ConfigReader.FirstAbsentOptionOfSectionReported | src/config_reader.py:75-80 | when the earlier sections are complete, the first absent option of the next section is reported with that section |
| ConfigReader.ReportedErrorIsGenuine | src/config_reader.py:75-80 | a reported section is required and absent; a reported option is required in a present section that lacks it |
| ConfigReader.OptionReportIsGenuine | src/config_reader.py:78-80 | an option reported by the inner loop is listed and absent |
| ConfigReader.ExtraEntriesIgnored | src/config_reader.py:75-80 | extra sections or options never make an accepted configuration rejected |
| ConfigReader.ValidationExamples | src/config_reader.py:68-80 | the exact file is accepted; an empty file reports "general"; a file holding only "general" reports "time"; the missing retry delay and body template are reported by name |
| ConfigReader.ValidConfigHoldsOptionsRead | src/config_reader.py:68-73 | an accepted configuration holds every option the program later fetches and uses, so none of them comes back as None |
| LegacyConfigReader.ConfigValidator.constructor | config_reader.py:63-64 | the validator holds the configuration it was given |
| LegacyConfigReader.ConfigValidator.ValidateConfig | config_reader.py:66-78 | the result is the first absence in the older required list; accepted iff nothing required is absent |
| LegacyConfigReader.MinimalConfigAccepted | config_reader.py:66-78 | the file holding exactly the older list's options is accepted |
| LegacyConfigReader.CurrentRejectsOlderFile | config_reader.py:70 | a file exact for the older list fails the current one at `email_retry_delay` |
| LegacyConfigReader.OlderRejectsCurrentFile | config_reader.py:70 | a file exact for the current list fails the older one at `wait_time_to_resend_email` |
| LegacyConfigReader.AcceptedConfigLacksNotifierOptions | config_reader.py:67-71 | the older list accepts a file that lacks alert_cooldown_time and email_retry_delay, which the notifier reads |
| LegacyConfigReader.CorrectedValidConfigHoldsOptionsRead | config_reader.py:67-71 | with the four missing options added to the list, an accepted file holds every option the program reads |
| LegacyConfigReader.CurrentPlusOldDelayPassesBoth | config_reader.py:67-71 | a file accepted by the current list that also holds the old delay name passes the older list |

## Left out

- Logging, `print`, message text and template formatting (`str.format`), and building the `EmailMessage`: an invalid recipient appears only as the `ValueError` outcome before any session.
- The SMTP session itself (`smtplib.SMTP`, `starttls`, `login`, `send_message`) and `check_network_connection`: behind the transport function, the socket probe's result is only logged.
- `get_usage` of every monitor (`shutil`, `psutil`, `pynvml`, `cpuinfo`), the `handle_exceptions` and `manage_gpu_resource` decorators, and `nvmlInit`/`nvmlShutdown`: foreign calls; readings are inputs.
- LegacySystemMonitor.GpuPresence: does not model `nvmlShutdown` raising inside `finally` and so replacing the returned false with an exception.
- SystemMonitor.CheckGpuPresence: exceptions other than NVML errors, which propagate out of the constructor, are not modelled; nor is the missing `nvmlShutdown` on the early `True` return.
- SystemMonitor.SystemMonitor.CheckHealth: models the notifier as the returned list of alerts; it does not model an exception or exit raised by `alert_format` aborting the rest of the cycle (the cooldown and delivery of each alert are modelled by `AlertFormat` separately).
- Cooldown.AlertStep: timestamps are integers, whereas `time.time()` is a float, and the cooldown value is read once per call.
- TimeManager.FormatWaitTime: the magnitude is an exact `real` quotient, so `ToSeconds(d) == waitTime` is a fact about the model; Python's `/` returns a rounded float (`62/60*60` is not 62), for which only the unit choice and the magnitude bounds hold. The value is only logged through `%.0f` (src/notification_alerts/email_notifier.py:95, notifier.py:110). The same holds for LegacyNotifier.FormatWaitTime.
- SystemMonitor.IsNvidia: lower-cases ASCII letters only; Python's `str.lower` also folds other Unicode letters.
- The `get_value` and `read_config` methods of both revisions, `configparser` parsing, option-name case folding and the DEFAULT section: thin library wrappers; the configuration is the parsed map.
- What happens when a fetched option is missing: `get_value` always passes a fallback (None by default) to `configparser`, so a missing option or section comes back as None. The threshold dictionary then holds all its keys, with None as the value of a missing threshold. The effect depends on the use. Most uses raise TypeError (a comparison with None, `enforce_max_wait_time(None)`) or AttributeError (`None.format`). A missing `smtp_port` silently means `smtplib`'s default port 25. A missing `smtp_server` leaves the session unconnected, so `starttls` raises `SMTPServerDisconnected` and every session ends in a terminal SMTP error. None of these effects is modelled; the validator's results are the model's statement of which options exist.
- main.py, src/main.py and configuration.py: the watchdog observer, logger set-up and the polling loop with its sleeps are I/O plumbing and are not part of this model.
- `send_test_email`: a thin caller of `send_alert` that only adds a `KeyboardInterrupt` handler.
- Only one disk per health check is modelled; the polling loop calls `check_health` once per configured disk.

## Findings

| source | as written | input that shows it | evidently intended | confidence | as-written member | corrected member |
|---|---|---|---|---|---|---|
| config_reader.py:67-71 | the older required list omits `email_retry_delay`, `alert_cooldown_time`, `alert_subject_template` and `alert_body_template`, although notifier.py:108,119,128-129 fetches and uses all four | `LegacyConfigReader.MINIMAL_CONFIG` (exactly the listed options) is accepted, yet the first `alert_format` call fetches `alert_cooldown_time` as None and raises TypeError when it compares the elapsed time with it at notifier.py:127 | the validator requires every option the program reads, as the current revision's list does | medium, not executed | LegacyConfigReader.AcceptedConfigLacksNotifierOptions | LegacyConfigReader.CorrectedValidConfigHoldsOptionsRead |

`LegacyConfigReader.ConfigValidator.ValidateConfig` still models the list as
written, because it describes the older revision. The corrected list is
`LegacyConfigReader.CORRECTED_NECESSARY_OPTIONS`. No other member of the model
consumes the validator's result.
