# app-monitor, modelled in Dafny

app-monitor is a JVM host-metrics reporter. `AppMonitor.toString` assembles a text report.
The report covers CPU load, heap and runtime memory, the operating system, filesystem storage,
the runtime (version, arguments, start time, up time, paths, system properties) and threads.
Each line of the report is appended to a `StringBuilder` and followed by the platform line
separator. Byte counts are rendered by `MemoryUtils.convertToStringRepresentation`. That method
picks the largest of TB, GB, MB, KB and B (powers of 1024) whose divisor does not exceed the
count. It rejects counts below 1 with an `IllegalArgumentException`.

The model has three modules:

- `JavaLang` (`java_lang.dfy`): the Java behaviour the core relies on.
  - Exceptions are values: `Result` is `Ok` or `Threw`.
  - `long` division and remainder truncate toward zero.
  - Decimal rendering of integers, with a round-trip proof.
  - `String.join`.
  - A `StrBuilder` class whose `Append` grows its `contents`.
  - `LineSeparator` is a fixed but unspecified non-empty string.
- `MemoryUtils` (`memory_utils.dfy`): the divisor and unit tables, the selection loop
  (`ConvertToStringRepresentation`, proved against the function `Representation`) and the
  `" " + unit` suffix. The `double` quotient and its `DecimalFormat` rendering are a
  function-typed parameter `render`.
- `AppMonitor` (`app_monitor.dfy`): the report assembly.
  - Every bean, `Runtime` and filesystem reading is a parameter: `HostReadings`, and one
    `RootReading` per filesystem root.
  - A builder filled through `addToStrBuilderWithLineSeparator` holds `Lines(pieces)`.
  - Each loop over roots, threads or properties is a method that is proved against a function
    of its inputs.
  - `toString` is proved to return `Report`. `ReportFollowsLayout` proves that every report has
    the banners and labels of `ReportLayout`, in order.

Two behaviours of the code are worth stating up front:

- Exceptions from storage: a capacity below 1 makes the formatter throw
  `IllegalArgumentException`. `getStorageMetrics` catches only `IOException`, so this exception
  escapes `getStorageMetrics` and then `toString` (`StorageBodies`, `ReportPieces`).
- Section order: `toString` appends the App Info banner, then the CPU, Memory, System, Runtime
  and Thread sections, then the closing banner (`ReportLayout`).

## Model

| member | source | states |
|---|---|---|
| JavaLang.JavaDiv | src/main/java/com/xba/app/monitoring/AppMonitor.java:116-118 | Java's `/` for a positive divisor truncates toward zero: q·b is the multiple of b next to the operand on the side of zero, so q·b ≤ a < q·b + b with q ≥ 0 for a ≥ 0, and q·b − b < a ≤ q·b with q ≤ 0 for a < 0 |
| JavaLang.JavaRem | src/main/java/com/xba/app/monitoring/AppMonitor.java:115-120 | Java's `%`: quotient times divisor plus remainder gives the operand back; the remainder lies in [0, b) for a non-negative operand and in (-b, 0] for a negative one |
| JavaLang.NatToString | src/main/java/com/xba/app/monitoring/AppMonitor.java:122 | the decimal text of a count is non-empty, all digits, with no leading zero |
| JavaLang.NatToStringRoundTrip | src/main/java/com/xba/app/monitoring/AppMonitor.java:122 | reading the digits back gives the number (the rendering loses nothing) |
| JavaLang.LongToString | src/main/java/com/xba/app/utils/MemoryUtils.java:15 | a `long` rendered with `+` or `%s` is non-empty and starts with '-' exactly when the value is negative |
| JavaLang.LongToStringDenotes | src/main/java/com/xba/app/utils/MemoryUtils.java:15 | after the optional minus sign comes a non-empty run of decimal digits with no leading zero, and its value is the absolute value of the number |
| JavaLang.LongToStringInjective | src/main/java/com/xba/app/utils/MemoryUtils.java:15 | two different values never render to the same text |
| JavaLang.Join | src/main/java/com/xba/app/monitoring/AppMonitor.java:106 | `String.join`: no parts give the empty string, and one part stands alone |
| JavaLang.JoinLength | src/main/java/com/xba/app/monitoring/AppMonitor.java:106 | n parts are joined with exactly n - 1 separators and nothing else |
| JavaLang.JoinConcat | src/main/java/com/xba/app/monitoring/AppMonitor.java:106 | joining two non-empty lists is joining each and putting one separator between the results |
| JavaLang.StrBuilder.constructor | src/main/java/com/xba/app/monitoring/AppMonitor.java:182 | a new builder is empty |
| JavaLang.StrBuilder.Append | src/main/java/com/xba/app/monitoring/AppMonitor.java:176-177 | an append adds exactly the string at the end |
| MemoryUtils.DividerConstants | src/main/java/com/xba/app/utils/MemoryUtils.java:6-9 | K = 1024, M = K·K, G = M·K, T = G·K = 1,099,511,627,776, and every divisor is at least 1 and fits in a `long` |
| MemoryUtils.UnitTable | src/main/java/com/xba/app/utils/MemoryUtils.java:12-13 | the two tables have five entries each and pair TB with T, GB with G, MB with M, KB with K and B with 1; the divisors strictly decrease |
| MemoryUtils.FirstFitFrom | src/main/java/com/xba/app/utils/MemoryUtils.java:17-22 | scanning from any position stops inside the table, at a divisor not above the value, after passing only divisors above it |
| MemoryUtils.UnitIndex | src/main/java/com/xba/app/utils/MemoryUtils.java:17-22 | for a value of at least 1, the chosen divisor is at most the value and every earlier (larger) divisor exceeds it |
| MemoryUtils.LargestFittingUnit | src/main/java/com/xba/app/utils/MemoryUtils.java:17-22 | a position is the chosen one if and only if its divisor fits and the next larger divisor, if any, does not: the largest fitting unit |
| MemoryUtils.UnitIndexMonotone | src/main/java/com/xba/app/utils/MemoryUtils.java:17-22 | for 1 <= a <= b, b is never shown in a smaller unit than a |
| MemoryUtils.UnitRanges | src/main/java/com/xba/app/utils/MemoryUtils.java:12-22 | the unit is B exactly below 1024, KB exactly in [K, M), MB in [M, G), GB in [G, T) and TB from T up |
| MemoryUtils.Format | src/main/java/com/xba/app/utils/MemoryUtils.java:27-33 | the rendered number is followed by a space and the unit name |
| MemoryUtils.Representation | src/main/java/com/xba/app/utils/MemoryUtils.java:11-25 | it throws if and only if the value is below 1, with the message "Invalid memory size: " and the value; otherwise the text ends with " " and the unit UnitIndex selects |
| MemoryUtils.ConvertToStringRepresentation | src/main/java/com/xba/app/utils/MemoryUtils.java:11-25 | the loop over the divisor table returns exactly Representation; the `null` result is unreachable because the last divisor is 1 |
| AppMonitor.LinesSnoc | src/main/java/com/xba/app/monitoring/AppMonitor.java:175-178 | one more piece adds that piece and one separator at the end of the builder's text |
| AppMonitor.LinesConcat | src/main/java/com/xba/app/monitoring/AppMonitor.java:175-178 | the text of two runs of appends is the first run's text followed by the second's |
| AppMonitor.LinesLength | src/main/java/com/xba/app/monitoring/AppMonitor.java:175-178 | each piece contributes its own characters and exactly one separator |
| AppMonitor.LinesAround | src/main/java/com/xba/app/monitoring/AppMonitor.java:175-178 | any piece sits, with its separator, between the text of the pieces before it and the text of those after it |
| AppMonitor.AddToStrBuilderWithLineSeparator | src/main/java/com/xba/app/monitoring/AppMonitor.java:175-178 | the builder gains exactly the string and then one separator, and its earlier text is unchanged |
| AppMonitor.InputArgumentsText | src/main/java/com/xba/app/monitoring/AppMonitor.java:105-107 | no arguments give the empty string, one argument stands alone, and n arguments carry exactly n - 1 ", " separators |
| AppMonitor.UpTimeFields | src/main/java/com/xba/app/monitoring/AppMonitor.java:114-120 | for upTime >= 0: ms = upTime % 1000 in 0..999, hours = upTime / 3,600,000, minutes = (upTime / 60,000) % 60 in 0..59, and seconds = s + s % 60 with s = upTime / 1000 |
| AppMonitor.UpTimeFieldsAreLongs | src/main/java/com/xba/app/monitoring/AppMonitor.java:114-120 | for a `long` up time every field stays a `long`, so the `long` locals never overflow |
| AppMonitor.GetUpTime | src/main/java/com/xba/app/monitoring/AppMonitor.java:113-123 | the reassigned locals render to "h min sec ms" text of UpTimeFields |
| AppMonitor.UpTimeExample | src/main/java/com/xba/app/monitoring/AppMonitor.java:113-123 | 3,661,004 ms renders as "1 h 1 min 3662 sec 4 ms" |
| AppMonitor.UpTimeOneSecondExample | src/main/java/com/xba/app/monitoring/AppMonitor.java:113-123 | 1,000 ms renders as "0 h 0 min 2 sec 0 ms" |
| AppMonitor.IntendedUpTimeFields | src/main/java/com/xba/app/monitoring/AppMonitor.java:115-120 | with seconds reduced modulo 60, every field is in range and the four fields add back up to the up time |
| AppMonitor.UpTimeSecondsNotReduced | src/main/java/com/xba/app/monitoring/AppMonitor.java:119 | for any up time of a second or more, the seconds field as written exceeds the intended second-of-minute, so the fields differ from the intended decomposition; below a minute the seconds are doubled, and from a minute on they are 60 or more |
| AppMonitor.SpaceAttempt | src/main/java/com/xba/app/monitoring/AppMonitor.java:86-89 | the query of one store succeeds if and only if nothing throws; it throws IllegalArgumentException exactly when a capacity read before any I/O failure is below 1; an I/O failure gives an IOException; success gives "available=" and ", total=" with both capacities formatted |
| AppMonitor.QueryFileStore | src/main/java/com/xba/app/monitoring/AppMonitor.java:86-89 | the `try` block, in Java's order of evaluation, yields SpaceAttempt |
| AppMonitor.RootBody | src/main/java/com/xba/app/monitoring/AppMonitor.java:84-95 | a root's line can only fail with the formatter's IllegalArgumentException; an IOException is caught |
| AppMonitor.RootLineShape | src/main/java/com/xba/app/monitoring/AppMonitor.java:85-91 | every root line starts with the root and ": "; after an IOException the rest is "error querying space: " and the description; otherwise it starts with "available=" |
| AppMonitor.StorageBodies | src/main/java/com/xba/app/monitoring/AppMonitor.java:83-96 | it succeeds if and only if no root's formatter throws, and then there is exactly one line per root, in enumeration order; the only exception that escapes is IllegalArgumentException |
| AppMonitor.StorageFirstThrowingRoot | src/main/java/com/xba/app/monitoring/AppMonitor.java:83-96 | when the enumeration throws, the exception is that of the first root whose formatting throws; every root before it formats |
| AppMonitor.StorageBodiesPrefixThrows | src/main/java/com/xba/app/monitoring/AppMonitor.java:83-96 | once some prefix of the roots throws, the whole enumeration throws that same exception |
| AppMonitor.StorageBodiesSnoc | src/main/java/com/xba/app/monitoring/AppMonitor.java:83-96 | one more root that does not throw adds its line at the end |
| AppMonitor.StorageBodiesSlice | src/main/java/com/xba/app/monitoring/AppMonitor.java:83-96 | any stretch of the roots is reported by the same stretch of lines |
| AppMonitor.StorageIoErrorIsolated | src/main/java/com/xba/app/monitoring/AppMonitor.java:86-95 | a root whose query hits an IOException gets its error line in its place, and the roots before and after it are reported exactly as they would be on their own |
| AppMonitor.AppendRootLine | src/main/java/com/xba/app/monitoring/AppMonitor.java:84-95 | the try/catch/finally for one root: the root's line and one separator reach the builder; the escaping exception is reported exactly when RootBody throws, and then the `finally` still appends the root, ": " and a separator |
| AppMonitor.GetStorageMetrics | src/main/java/com/xba/app/monitoring/AppMonitor.java:80-98 | the loop over the roots returns StorageMetrics: every line followed by a separator, or the first escaping exception |
| AppMonitor.ThreadEntries | src/main/java/com/xba/app/monitoring/AppMonitor.java:157-165 | one entry per thread id, and the i-th entry is the i-th thread's three-line entry |
| AppMonitor.ThreadStatusesInOrder | src/main/java/com/xba/app/monitoring/AppMonitor.java:157-167 | the statuses of two runs of ids are the first run's statuses followed by the second's |
| AppMonitor.ThreadStatus | src/main/java/com/xba/app/monitoring/AppMonitor.java:158-163 | the three appends give the name line, then the state line, then the "CPU time = ... ns" line |
| AppMonitor.GetThreadsStatuses | src/main/java/com/xba/app/monitoring/AppMonitor.java:155-168 | the loop returns every thread's entry in id order, each followed by a separator |
| AppMonitor.PropertyLines | src/main/java/com/xba/app/monitoring/AppMonitor.java:135-138 | one "key = value" line per property, in the order given |
| AppMonitor.GetSystemProperties | src/main/java/com/xba/app/monitoring/AppMonitor.java:133-140 | the loop returns every property line followed by a separator |
| AppMonitor.FollowsLayoutConcat | src/main/java/com/xba/app/monitoring/AppMonitor.java:181-223 | pieces that follow two layouts, one after the other, follow the joined layout |
| AppMonitor.CpuSection | src/main/java/com/xba/app/monitoring/AppMonitor.java:184-187 | the CPU lines follow the CPU banner and labels |
| AppMonitor.MemorySection | src/main/java/com/xba/app/monitoring/AppMonitor.java:188-196 | it throws if and only if one of the seven memory readings is below 1, and only IllegalArgumentException; otherwise the lines follow the memory banner and labels |
| AppMonitor.SystemSection | src/main/java/com/xba/app/monitoring/AppMonitor.java:197-203 | it throws if and only if some root's formatter throws; otherwise the lines follow the system banner and labels |
| AppMonitor.RuntimeSection | src/main/java/com/xba/app/monitoring/AppMonitor.java:204-215 | the runtime lines follow the runtime banner and labels |
| AppMonitor.ThreadSection | src/main/java/com/xba/app/monitoring/AppMonitor.java:216-222 | the thread lines follow the thread banner and labels, and the closing banner comes last |
| AppMonitor.ReportPieces | src/main/java/com/xba/app/monitoring/AppMonitor.java:181-223 | the report fails if and only if a memory reading is below 1 or some root's formatter throws, and then only with IllegalArgumentException |
| AppMonitor.ReportFollowsLayout | src/main/java/com/xba/app/monitoring/AppMonitor.java:181-223 | when every reading formats, the report succeeds and is built from exactly the layout's 34 appended pieces in order, each followed by a separator: each banner exactly where the layout puts it, and each label at the start of its piece (the storage, system-properties and thread-status pieces themselves span several lines) |
| AppMonitor.SectionsFollowLayout | src/main/java/com/xba/app/monitoring/AppMonitor.java:183-222 | the App Info banner and the CPU, memory, system, runtime and thread sections, put together in that order, follow the report layout |
| AppMonitor.ReportsShareLayout | src/main/java/com/xba/app/monitoring/AppMonitor.java:181-223 | two reports from any readings that format carry identical banners at identical positions |
| AppMonitor.AppendCpuSection | src/main/java/com/xba/app/monitoring/AppMonitor.java:184-187 | the CPU appends extend the builder by the lines of CpuSection |
| AppMonitor.AppendMemorySection | src/main/java/com/xba/app/monitoring/AppMonitor.java:188-196 | the memory appends either stop with MemorySection's exception or extend the builder by its lines |
| AppMonitor.AppendSystemSection | src/main/java/com/xba/app/monitoring/AppMonitor.java:197-203 | the system appends either stop with SystemSection's exception or extend the builder by its lines |
| AppMonitor.AppendRuntimeSection | src/main/java/com/xba/app/monitoring/AppMonitor.java:204-215 | the runtime appends extend the builder by the lines of RuntimeSection |
| AppMonitor.AppendThreadSection | src/main/java/com/xba/app/monitoring/AppMonitor.java:216-222 | the thread appends extend the builder by the lines of ThreadSection |
| AppMonitor.ToString | src/main/java/com/xba/app/monitoring/AppMonitor.java:181-224 | toString returns Report: the report's pieces, each followed by a separator, or the exception that escapes a getter |

## Left out

- Management beans, `Runtime.getRuntime()`, filesystem enumeration and `Files.getFileStore` are
  reads of the host. Their results are inputs: `HostReadings`, and one `RootReading` per root
  holding the outcome of each read.
- `double` division and `DecimalFormat("#,##0.#")` involve floating point, locale grouping and
  rounding. They are the abstract parameter `render`.
- CPU load and the load average, rendered with `String.valueOf(double)`, are floating point. They
  are given as text inputs.
- The start time, rendered with `Date.toString()`, depends on time zone and calendar. It is a text
  input.
- The iteration order of the system-properties map is platform-defined. The properties are a
  given sequence, and the model covers only the `key = value` line each one produces.
- The actual characters of `System.lineSeparator()` are left open: it is a fixed, non-empty
  constant. `String.format` with `%s` is modelled as concatenation. This assumes the separator
  contains no `%` sign, which holds on every JVM platform.
- A `ThreadInfo` that is null because the thread vanished (a NullPointerException in the code) is
  not modelled. Every thread id comes with its reading.
- The thread count and the thread entries are separate inputs. The model does not relate them,
  because the code reads them at different instants.
- `SecurityException` and other unchecked exceptions of the host reads are not modelled.
- The one-line getters (heap, free, max and total memory, system name, and so on) are inlined
  into the sections of `toString`. Each memory getter is the `ConvertToStringRepresentation` call.
- The single `toString` method is split into one method per report
  section (`AppendCpuSection` … `AppendThreadSection`). The appends and their order are
  unchanged.
- Java `long` values are unbounded integers. No overflow can occur in the modelled arithmetic
  (`UpTimeFieldsAreLongs`, `DividerConstants`).

## Findings

| source | as written | input that shows it | evidently intended | confidence | as-written member | corrected member |
|---|---|---|---|---|---|---|
| src/main/java/com/xba/app/monitoring/AppMonitor.java:119 | `seconds += seconds % 60` adds the second-of-minute to the total number of seconds, which was never reduced modulo 60, so the seconds field is too large from one second on: doubled below a minute, 60 or more from a minute on | any up time of 1,000 ms or more: 1,000 ms renders as "0 h 0 min 2 sec 0 ms" and 3,661,004 ms as "1 h 1 min 3662 sec 4 ms" | `seconds = seconds % 60`, giving "0 h 0 min 1 sec 0 ms" and "1 h 1 min 1 sec 4 ms"; the four fields then add back up to the up time | not executed | AppMonitor.UpTimeSecondsNotReduced | AppMonitor.IntendedUpTimeFields |

The report itself (`RuntimeSection`, `AppendRuntimeSection`) keeps the up-time text the code
prints, from `UpTimeFields`. `IntendedUpTimeFields` is the corrected decomposition, with its
round trip proved. It is not substituted into the report, because the report models what the
program outputs.
