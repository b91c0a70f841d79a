/**
 * The monitor's report assembly. Every reading of the host (memory counters, CPU load,
 * operating-system and runtime facts, file-store capacities, thread information) is an
 * input value; what is modelled is how the monitor turns those readings into text.
 *
 * A `StringBuilder` that receives pieces through addToStrBuilderWithLineSeparator holds
 * `Lines(pieces)`: every piece, in order, each followed by one line separator.
 */
module AppMonitor {
  import opened JavaLang
  import MemoryUtils

  // ---------------------------------------------------------------------------
  // Text built piece by piece
  // ---------------------------------------------------------------------------

  /** The text of a builder that received each piece followed by a line separator. */
  function Lines(pieces: seq<string>): string {
    if pieces == [] then ""
    else Lines(pieces[..|pieces| - 1]) + pieces[|pieces| - 1] + LineSeparator
  }

  lemma LinesSnoc(pieces: seq<string>, s: string)
    ensures Lines(pieces + [s]) == Lines(pieces) + s + LineSeparator
  {
    assert (pieces + [s])[..|pieces|] == pieces;
  }

  /** Taking one more piece of a list adds that piece and a separator. */
  lemma LinesStep(pieces: seq<string>, i: nat, s: string)
    requires i < |pieces| && pieces[i] == s
    ensures Lines(pieces[..i + 1]) == Lines(pieces[..i]) + s + LineSeparator
  {
    assert pieces[..i + 1] == pieces[..i] + [s];
    LinesSnoc(pieces[..i], s);
  }

  /** Building from two lists one after the other gives the two texts one after the other. */
  lemma {:induction false} LinesConcat(a: seq<string>, b: seq<string>)
    ensures Lines(a + b) == Lines(a) + Lines(b)
    decreases |b|
  {
    if b == [] {
      assert a + b == a;
    } else {
      var b' := b[..|b| - 1];
      assert (a + b)[..|a + b| - 1] == a + b';
      LinesConcat(a, b');
    }
  }

  /** Each piece contributes its own characters plus one separator, nothing more. */
  lemma {:induction false} LinesLength(pieces: seq<string>)
    ensures |Lines(pieces)| == TotalLength(pieces) + |pieces| * |LineSeparator|
  {
    if pieces != [] {
      LinesLength(pieces[..|pieces| - 1]);
    }
  }

  lemma SplitAt<T>(s: seq<T>, i: nat)
    requires i < |s|
    ensures s == (s[..i] + [s[i]]) + s[i + 1..]
  {
  }

  /** Any one piece sits, with its separator, between the text of the pieces before and after it. */
  lemma LinesAround(pieces: seq<string>, i: nat)
    requires i < |pieces|
    ensures Lines(pieces) == Lines(pieces[..i]) + pieces[i] + LineSeparator + Lines(pieces[i + 1..])
  {
    SplitAt(pieces, i);
    LinesConcat(pieces[..i] + [pieces[i]], pieces[i + 1..]);
    LinesSnoc(pieces[..i], pieces[i]);
  }

  /** addToStrBuilderWithLineSeparator: the builder gains the string and then one separator. */
  method AddToStrBuilderWithLineSeparator(builder: StrBuilder, strToAdd: string)
    modifies builder
    ensures builder.contents == old(builder.contents) + strToAdd + LineSeparator
    ensures builder.contents[..|old(builder.contents)|] == old(builder.contents)
  {
    builder.Append(strToAdd);
    builder.Append(LineSeparator);
  }

  // ---------------------------------------------------------------------------
  // Input arguments
  // ---------------------------------------------------------------------------

  /**
   * getInputArguments: the JVM's input arguments joined by ", ". Nothing is added for no
   * arguments, a single argument stands alone, and n arguments carry exactly n - 1
   * separators besides their own characters.
   */
  function InputArgumentsText(args: seq<string>): (s: string)
    ensures args == [] ==> s == ""
    ensures |args| == 1 ==> s == args[0]
    ensures |args| >= 1 ==> |s| == TotalLength(args) + 2 * (|args| - 1)
  {
    if args == [] then "" else
      JoinLength(args, ", ");
      Join(args, ", ")
  }

  // ---------------------------------------------------------------------------
  // Up time
  // ---------------------------------------------------------------------------

  /** The four numbers of the up-time text. */
  datatype UpTime = UpTime(hours: int, minutes: int, seconds: int, millis: int)

  /** Dividing by 1000, then 60, then 60 is dividing by 60,000 and by 3,600,000. */
  lemma UpTimeDivisions(upTime: int)
    ensures upTime >= 0 ==> (upTime / 1000) / 60 == upTime / 60_000
    ensures upTime >= 0 ==> (upTime / 60_000) / 60 == upTime / 3_600_000
  {
    if upTime >= 0 {
      var s, m := upTime / 1000, upTime / 1000 / 60;
      assert upTime == 60_000 * m + (1000 * (s % 60) + upTime % 1000);
      var m', h := upTime / 60_000, upTime / 60_000 / 60;
      assert upTime == 3_600_000 * h + (60_000 * (m' % 60) + upTime % 60_000);
    }
  }

  /**
   * The fields getUpTime computes from a millisecond count, with Java's truncating
   * division. As written, the seconds field is the total number of seconds plus that
   * number modulo 60; it is not reduced to a second-of-minute.
   */
  function UpTimeFields(upTime: int): (f: UpTime)
    ensures upTime >= 0 ==> f.millis == upTime % 1000 && 0 <= f.millis < 1000
    ensures upTime >= 0 ==> f.hours == upTime / 3_600_000
    ensures upTime >= 0 ==> f.minutes == (upTime / 60_000) % 60 && 0 <= f.minutes < 60
    ensures upTime >= 0 ==> f.seconds == upTime / 1000 + (upTime / 1000) % 60
  {
    var seconds := JavaDiv(upTime, 1000);
    var minutes := JavaDiv(seconds, 60);
    UpTimeDivisions(upTime);
    UpTime(JavaDiv(minutes, 60), JavaRem(minutes, 60), seconds + JavaRem(seconds, 60), JavaRem(upTime, 1000))
  }

  /** None of the fields leaves the range of a Java `long`, so the `long` locals never overflow. */
  lemma UpTimeFieldsAreLongs(upTime: int)
    requires IsLong(upTime)
    ensures var f := UpTimeFields(upTime);
      IsLong(f.hours) && IsLong(f.minutes) && IsLong(f.seconds) && IsLong(f.millis)
  {
  }

  /** `String.format("%s h %s min %s sec %s ms", ...)`. */
  function UpTimeText(f: UpTime): string {
    LongToString(f.hours) + " h " + LongToString(f.minutes) + " min "
    + LongToString(f.seconds) + " sec " + LongToString(f.millis) + " ms"
  }

  /** getUpTime: splits the JVM's up time in milliseconds into the four fields and renders them. */
  method GetUpTime(upTime: int) returns (text: string)
    ensures text == UpTimeText(UpTimeFields(upTime))
  {
    var milliseconds := JavaRem(upTime, 1000);
    var seconds := JavaDiv(upTime, 1000);
    var minutes := JavaDiv(seconds, 60);
    var hours := JavaDiv(minutes, 60);
    seconds := seconds + JavaRem(seconds, 60);
    minutes := JavaRem(minutes, 60);
    var fields := UpTime(hours, minutes, seconds, milliseconds);
    assert fields == UpTimeFields(upTime);
    text := UpTimeText(fields);
  }

  /** 3,661,004 ms is one hour, one minute, one second and four milliseconds, rendered with 3662 seconds. */
  lemma UpTimeExample()
    ensures UpTimeFields(3_661_004) == UpTime(1, 1, 3662, 4)
    ensures UpTimeText(UpTimeFields(3_661_004)) == "1 h 1 min 3662 sec 4 ms"
  {
    UpTimeDivisions(3_661_004);
    UpTimeExampleText();
  }

  lemma UpTimeExampleText()
    ensures UpTimeText(UpTime(1, 1, 3662, 4)) == "1 h 1 min 3662 sec 4 ms"
  {
    assert LongToString(1) == "1" && LongToString(4) == "4";
    assert LongToString(3662) == "3662";
  }

  /** One second of up time already shows two seconds. */
  lemma UpTimeOneSecondExample()
    ensures UpTimeFields(1000) == UpTime(0, 0, 2, 0)
    ensures UpTimeText(UpTimeFields(1000)) == "0 h 0 min 2 sec 0 ms"
  {
    var f := UpTimeFields(1000);
    assert f.hours == 0 && f.minutes == 0 && f.seconds == 2 && f.millis == 0;
    UpTimeOneSecondText();
  }

  lemma UpTimeOneSecondText()
    ensures UpTimeText(UpTime(0, 0, 2, 0)) == "0 h 0 min 2 sec 0 ms"
  {
    assert LongToString(0) == "0" && LongToString(2) == "2";
  }

  /**
   * The decomposition the up-time text is evidently meant to show: seconds reduced
   * modulo 60 like the minutes.
   */
  function IntendedUpTimeFields(upTime: int): (f: UpTime)
    requires upTime >= 0
    ensures 0 <= f.millis < 1000 && 0 <= f.seconds < 60 && 0 <= f.minutes < 60 && 0 <= f.hours
    ensures f.hours * 3_600_000 + f.minutes * 60_000 + f.seconds * 1000 + f.millis == upTime
  {
    var seconds := JavaDiv(upTime, 1000);
    var minutes := JavaDiv(seconds, 60);
    UpTime(JavaDiv(minutes, 60), JavaRem(minutes, 60), JavaRem(seconds, 60), JavaRem(upTime, 1000))
  }

  /**
   * As written, every up time of a second or more shows too many seconds, so the rendered
   * fields no longer add up to the up time: below a minute the seconds are doubled, and
   * from a minute on the seconds field is 60 or more.
   */
  lemma UpTimeSecondsNotReduced(upTime: int)
    requires upTime >= 1000
    ensures UpTimeFields(upTime).seconds > IntendedUpTimeFields(upTime).seconds
    ensures UpTimeFields(upTime) != IntendedUpTimeFields(upTime)
    ensures upTime < 60_000 ==> UpTimeFields(upTime).seconds == 2 * IntendedUpTimeFields(upTime).seconds
    ensures upTime >= 60_000 ==> UpTimeFields(upTime).seconds >= 60
  {
    var seconds := upTime / 1000;
    assert IntendedUpTimeFields(upTime).seconds == seconds % 60;
    assert UpTimeFields(upTime).seconds == seconds + seconds % 60;
    assert upTime < 60_000 ==> seconds % 60 == seconds;
  }

  // ---------------------------------------------------------------------------
  // Storage metrics
  // ---------------------------------------------------------------------------

  /** One capacity reading of a file store: a byte count, or the IOException it threw. */
  datatype SpaceReading = Bytes(count: int) | ReadFailed(error: string)

  /** `Files.getFileStore(root)` threw, or gave a store whose two capacities were read. */
  datatype FileStoreQuery = StoreFailed(error: string) | Store(usable: SpaceReading, total: SpaceReading)

  /** A filesystem root as `toString` shows it, with the outcome of querying its store. */
  datatype RootReading = RootReading(path: string, store: FileStoreQuery)

  const ErrorQueryingSpace: string := "error querying space: "

  /**
   * True when querying the store ends in an IllegalArgumentException from the formatter:
   * the usable space was read and is below 1, or it is fine and the total space was read
   * and is below 1.
   */
  predicate FormatterThrows(store: FileStoreQuery) {
    && store.Store?
    && store.usable.Bytes?
    && (store.usable.count < 1 || (store.total.Bytes? && store.total.count < 1))
  }

  /** The description of the IOException that ends the query of a store, if one does. */
  function IoFailure(store: FileStoreQuery): Option<string> {
    match store
    case StoreFailed(e) => Some(e)
    case Store(ReadFailed(e), _) => Some(e)
    case Store(Bytes(n), ReadFailed(e)) => if n >= 1 then Some(e) else None
    case Store(Bytes(_), Bytes(_)) => None
  }

  /**
   * The body of the `try` for one root, in Java's order of evaluation: open the store,
   * read and format the usable space, then read and format the total space.
   */
  function SpaceAttempt(store: FileStoreQuery, render: MemoryUtils.NumberRenderer): (r: Result<string>)
    ensures r.Ok? <==> IoFailure(store) == None && !FormatterThrows(store)
    ensures r.Threw? && r.exception.IllegalArgumentException? <==> FormatterThrows(store)
    ensures IoFailure(store).Some? ==> r == Threw(IOException(IoFailure(store).value))
    ensures r.Ok? ==>
      && MemoryUtils.Representation(store.usable.count, render).Ok?
      && MemoryUtils.Representation(store.total.count, render).Ok?
      && r.value == "available=" + MemoryUtils.Representation(store.usable.count, render).value
                    + ", total=" + MemoryUtils.Representation(store.total.count, render).value
  {
    match store
    case StoreFailed(e) => Threw(IOException(e))
    case Store(usable, total) =>
      if usable.ReadFailed? then Threw(IOException(usable.error))
      else
        var available := MemoryUtils.Representation(usable.count, render);
        if available.Threw? then available
        else if total.ReadFailed? then Threw(IOException(total.error))
        else
          var all := MemoryUtils.Representation(total.count, render);
          if all.Threw? then all
          else Ok("available=" + available.value + ", total=" + all.value)
  }

  /** The `try` block of getStorageMetrics for one root, as a call that returns or throws. */
  method QueryFileStore(store: FileStoreQuery, render: MemoryUtils.NumberRenderer) returns (r: Result<string>)
    ensures r == SpaceAttempt(store, render)
  {
    match store {
      case StoreFailed(e) =>
        return Threw(IOException(e));
      case Store(usable, total) =>
        if usable.ReadFailed? {
          return Threw(IOException(usable.error));
        }
        var available := MemoryUtils.ConvertToStringRepresentation(usable.count, render);
        if available.Threw? {
          return available;
        }
        if total.ReadFailed? {
          return Threw(IOException(total.error));
        }
        var all := MemoryUtils.ConvertToStringRepresentation(total.count, render);
        if all.Threw? {
          return all;
        }
        return Ok("available=" + available.value + ", total=" + all.value);
    }
  }

  /**
   * The line of one root without its separator: the root, ": ", then the capacities or,
   * when an IOException was caught, the error text. Only the formatter's
   * IllegalArgumentException gets past the `catch`.
   */
  function RootBody(root: RootReading, render: MemoryUtils.NumberRenderer): (r: Result<string>)
    ensures r.Threw? <==> FormatterThrows(root.store)
    ensures r.Threw? ==> r.exception.IllegalArgumentException?
  {
    match SpaceAttempt(root.store, render)
    case Ok(text) => Ok(root.path + ": " + text)
    case Threw(IOException(e)) => Ok(root.path + ": " + (ErrorQueryingSpace + e))
    case Threw(other) => Threw(other)
  }

  /**
   * Every root's line starts with the root and ": ". When an IOException ended the query
   * the rest of the line is the error text; otherwise it gives the two capacities.
   */
  lemma RootLineShape(root: RootReading, render: MemoryUtils.NumberRenderer)
    requires RootBody(root, render).Ok?
    ensures StartsWith(RootBody(root, render).value, root.path + ": ")
    ensures IoFailure(root.store).Some? ==>
      RootBody(root, render).value == root.path + ": " + (ErrorQueryingSpace + IoFailure(root.store).value)
    ensures IoFailure(root.store).None? ==>
      RootBody(root, render).value == root.path + ": " + SpaceAttempt(root.store, render).value
      && StartsWith(SpaceAttempt(root.store, render).value, "available=")
  {
  }

  /**
   * The lines of the roots in enumeration order, or the exception of the first root whose
   * formatting throws.
   */
  function StorageBodies(roots: seq<RootReading>, render: MemoryUtils.NumberRenderer): (r: Result<seq<string>>)
    ensures r.Ok? <==> forall i {:trigger FormatterThrows(roots[i].store)} ::
      0 <= i < |roots| ==> !FormatterThrows(roots[i].store)
    ensures r.Ok? ==> |r.value| == |roots|
    ensures r.Ok? ==> forall i {:trigger RootBody(roots[i], render)} ::
      0 <= i < |roots| ==> RootBody(roots[i], render) == Ok(r.value[i])
    ensures r.Threw? ==> r.exception.IllegalArgumentException?
    decreases |roots|
  {
    if roots == [] then Ok([])
    else
      var init := roots[..|roots| - 1];
      var last := roots[|roots| - 1];
      assert forall i :: 0 <= i < |init| ==> init[i] == roots[i];
      var previous := StorageBodies(init, render);
      if previous.Threw? then previous
      else
        var body := RootBody(last, render);
        if body.Threw? then Threw(body.exception)
        else Ok(previous.value + [body.value])
  }

  /** When the enumeration throws, the exception is that of the first root whose formatting throws. */
  lemma {:induction false} StorageFirstThrowingRoot(roots: seq<RootReading>, render: MemoryUtils.NumberRenderer)
    requires StorageBodies(roots, render).Threw?
    ensures exists i :: (0 <= i < |roots|
      && RootBody(roots[i], render) == Threw(StorageBodies(roots, render).exception)
      && forall j :: 0 <= j < i ==> !FormatterThrows(roots[j].store))
  {
    var n := |roots|;
    var init := roots[..n - 1];
    assert forall j :: 0 <= j < |init| ==> init[j] == roots[j];
    if StorageBodies(init, render).Threw? {
      StorageFirstThrowingRoot(init, render);
      var i :| 0 <= i < |init|
        && RootBody(init[i], render) == Threw(StorageBodies(init, render).exception)
        && forall j :: 0 <= j < i ==> !FormatterThrows(init[j].store);
      assert RootBody(roots[i], render) == Threw(StorageBodies(roots, render).exception);
    } else {
      assert RootBody(roots[n - 1], render) == Threw(StorageBodies(roots, render).exception);
    }
  }

  /** Once a prefix of the roots throws, the whole enumeration throws the same exception. */
  lemma {:induction false} StorageBodiesPrefixThrows(roots: seq<RootReading>, k: nat, render: MemoryUtils.NumberRenderer)
    requires k <= |roots|
    requires StorageBodies(roots[..k], render).Threw?
    ensures StorageBodies(roots, render) == StorageBodies(roots[..k], render)
    decreases |roots|
  {
    if k < |roots| {
      var init := roots[..|roots| - 1];
      assert init[..k] == roots[..k];
      StorageBodiesPrefixThrows(init, k, render);
    } else {
      assert roots[..k] == roots;
    }
  }

  /** Reporting one more root that does not throw adds its line at the end. */
  lemma StorageBodiesSnoc(roots: seq<RootReading>, k: nat, bodies: seq<string>, render: MemoryUtils.NumberRenderer)
    requires k < |roots| && StorageBodies(roots[..k], render) == Ok(bodies)
    requires RootBody(roots[k], render).Ok?
    ensures StorageBodies(roots[..k + 1], render) == Ok(bodies + [RootBody(roots[k], render).value])
  {
    assert roots[..k + 1][..k] == roots[..k];
  }

  /** What getStorageMetrics returns: one line per root, or the escaping exception. */
  function StorageMetrics(roots: seq<RootReading>, render: MemoryUtils.NumberRenderer): Result<string> {
    match StorageBodies(roots, render)
    case Ok(bodies) => Ok(Lines(bodies))
    case Threw(e) => Threw(e)
  }

  /** The roots of any stretch of the enumeration are reported by the same lines. */
  lemma StorageBodiesSlice(roots: seq<RootReading>, lo: nat, hi: nat, render: MemoryUtils.NumberRenderer)
    requires lo <= hi <= |roots| && StorageBodies(roots, render).Ok?
    ensures StorageBodies(roots[lo..hi], render) == Ok(StorageBodies(roots, render).value[lo..hi])
  {
    StorageSliceOk(roots, lo, hi, render);
    StorageSliceLines(roots, lo, hi, render);
  }

  lemma StorageSliceOk(roots: seq<RootReading>, lo: nat, hi: nat, render: MemoryUtils.NumberRenderer)
    requires lo <= hi <= |roots| && StorageBodies(roots, render).Ok?
    ensures StorageBodies(roots[lo..hi], render).Ok?
  {
    var part := roots[lo..hi];
    forall i | 0 <= i < |part| ensures !FormatterThrows(part[i].store) {
      assert part[i] == roots[lo + i];
    }
  }

  lemma StorageSliceLines(roots: seq<RootReading>, lo: nat, hi: nat, render: MemoryUtils.NumberRenderer)
    requires lo <= hi <= |roots| && StorageBodies(roots, render).Ok? && StorageBodies(roots[lo..hi], render).Ok?
    ensures StorageBodies(roots[lo..hi], render).value == StorageBodies(roots, render).value[lo..hi]
  {
    var all := StorageBodies(roots, render).value;
    var bodies := StorageBodies(roots[lo..hi], render).value;
    assert |bodies| == |all[lo..hi]| == hi - lo;
    forall i | 0 <= i < hi - lo ensures bodies[i] == all[lo..hi][i] {
      StorageSliceLineAt(roots, lo, hi, i, render);
    }
  }

  lemma StorageSliceLineAt(roots: seq<RootReading>, lo: nat, hi: nat, i: nat, render: MemoryUtils.NumberRenderer)
    requires lo <= hi <= |roots| && i < hi - lo
    requires StorageBodies(roots, render).Ok? && StorageBodies(roots[lo..hi], render).Ok?
    ensures StorageBodies(roots[lo..hi], render).value[i] == StorageBodies(roots, render).value[lo..hi][i]
  {
    var part := roots[lo..hi];
    assert StorageBodies(roots, render).value[lo..hi][i] == StorageBodies(roots, render).value[lo + i];
    assert part[i] == roots[lo + i];
    assert RootBody(part[i], render) == Ok(StorageBodies(part, render).value[i]);
    assert RootBody(roots[lo + i], render) == Ok(StorageBodies(roots, render).value[lo + i]);
  }

  /**
   * A root whose store could not be queried gets its error line, in its place, and the
   * roots before and after it are reported as usual.
   */
  lemma StorageIoErrorIsolated(roots: seq<RootReading>, i: nat, render: MemoryUtils.NumberRenderer)
    requires i < |roots| && IoFailure(roots[i].store).Some?
    requires StorageMetrics(roots, render).Ok?
    ensures StorageMetrics(roots[..i], render).Ok?
    ensures StorageMetrics(roots[i + 1..], render).Ok?
    ensures var errorLine := roots[i].path + ": " + (ErrorQueryingSpace + IoFailure(roots[i].store).value);
      StorageMetrics(roots, render).value
      == StorageMetrics(roots[..i], render).value + errorLine + LineSeparator
         + StorageMetrics(roots[i + 1..], render).value
  {
    var all := StorageBodies(roots, render).value;
    StorageBodiesSlice(roots, 0, i, render);
    assert roots[0..i] == roots[..i] && all[0..i] == all[..i];
    StorageBodiesSlice(roots, i + 1, |roots|, render);
    assert roots[i + 1..|roots|] == roots[i + 1..] && all[i + 1..|roots|] == all[i + 1..];
    assert RootBody(roots[i], render) == Ok(all[i]);
    RootLineShape(roots[i], render);
    LinesAround(all, i);
    assert StorageMetrics(roots, render) == Ok(Lines(all));
    assert StorageMetrics(roots[..i], render) == Ok(Lines(all[..i]));
    assert StorageMetrics(roots[i + 1..], render) == Ok(Lines(all[i + 1..]));
  }

  /**
   * The body of getStorageMetrics's loop for one root: the `try` with its `catch` of
   * IOException and its `finally`. The root's line goes into `storageMetrics` in every
   * case; `escaped` is the exception that the `catch` does not stop.
   */
  method AppendRootLine(storageMetrics: StrBuilder, root: RootReading, render: MemoryUtils.NumberRenderer)
    returns (escaped: Option<Exception>)
    modifies storageMetrics
    ensures escaped.None? <==> RootBody(root, render).Ok?
    ensures escaped.Some? ==> RootBody(root, render) == Threw(escaped.value)
    ensures escaped.None? ==>
      storageMetrics.contents == old(storageMetrics.contents) + RootBody(root, render).value + LineSeparator
    ensures escaped.Some? ==>
      storageMetrics.contents == old(storageMetrics.contents) + (root.path + ": ") + LineSeparator
  {
    var specificPathStorageMetrics := new StrBuilder();
    specificPathStorageMetrics.Append(root.path + ": ");
    escaped := None;
    var attempt := QueryFileStore(root.store, render);
    if attempt.Ok? {
      specificPathStorageMetrics.Append(attempt.value);
    } else if attempt.exception.IOException? {
      specificPathStorageMetrics.Append(ErrorQueryingSpace + attempt.exception.description);
    } else {
      escaped := Some(attempt.exception);
    }
    assert escaped.None? ==> specificPathStorageMetrics.contents == RootBody(root, render).value;
    assert escaped.Some? ==> specificPathStorageMetrics.contents == root.path + ": ";
    // the `finally` block runs whether or not an exception escapes
    specificPathStorageMetrics.Append(LineSeparator);
    storageMetrics.Append(specificPathStorageMetrics.ToString());
  }

  /** getStorageMetrics: one line per filesystem root, in the order the roots are enumerated. */
  method GetStorageMetrics(roots: seq<RootReading>, render: MemoryUtils.NumberRenderer) returns (r: Result<string>)
    ensures r == StorageMetrics(roots, render)
  {
    var storageMetrics := new StrBuilder();
    ghost var bodies: seq<string> := [];
    for i := 0 to |roots|
      invariant StorageBodies(roots[..i], render) == Ok(bodies)
      invariant storageMetrics.contents == Lines(bodies)
    {
      var escaped := AppendRootLine(storageMetrics, roots[i], render);
      if escaped.Some? {
        assert roots[..i + 1][..i] == roots[..i];
        StorageBodiesPrefixThrows(roots, i + 1, render);
        return Threw(escaped.value);
      }
      StorageBodiesSnoc(roots, i, bodies, render);
      LinesSnoc(bodies, RootBody(roots[i], render).value);
      bodies := bodies + [RootBody(roots[i], render).value];
    }
    assert roots[..|roots|] == roots;
    r := Ok(storageMetrics.ToString());
  }

  // ---------------------------------------------------------------------------
  // Threads and system properties
  // ---------------------------------------------------------------------------

  /** `Thread.State`, shown by its constant name. */
  datatype ThreadState = New | Runnable | Blocked | Waiting | TimedWaiting | Terminated

  function StateName(s: ThreadState): string {
    match s
    case New => "NEW"
    case Runnable => "RUNNABLE"
    case Blocked => "BLOCKED"
    case Waiting => "WAITING"
    case TimedWaiting => "TIMED_WAITING"
    case Terminated => "TERMINATED"
  }

  /** What the thread bean reports for one thread id: its info and its CPU time in ns. */
  datatype ThreadReading = ThreadReading(name: string, state: ThreadState, cpuTime: int)

  /**
   * The three lines shown for one thread, as the three appends build them (the
   * separator after the last line is added by the caller).
   */
  function ThreadEntry(t: ThreadReading): string {
    ("Thread name =  " + t.name)
    + (LineSeparator + "\tstate = " + StateName(t.state))
    + (LineSeparator + "\tCPU time = " + LongToString(t.cpuTime) + " ns")
  }

  function ThreadEntries(threads: seq<ThreadReading>): (entries: seq<string>)
    ensures |entries| == |threads|
    ensures forall i :: 0 <= i < |threads| ==> entries[i] == ThreadEntry(threads[i])
  {
    seq(|threads|, i requires 0 <= i < |threads| => ThreadEntry(threads[i]))
  }

  /**
   * The statuses of two runs of thread ids, one after the other, are the statuses of the
   * first run followed by those of the second: entries keep the order of the ids.
   */
  lemma ThreadStatusesInOrder(a: seq<ThreadReading>, b: seq<ThreadReading>)
    ensures Lines(ThreadEntries(a + b)) == Lines(ThreadEntries(a)) + Lines(ThreadEntries(b))
  {
    var all, parts := ThreadEntries(a + b), ThreadEntries(a) + ThreadEntries(b);
    forall j | 0 <= j < |all| ensures all[j] == parts[j] {
      if j >= |a| {
        assert (a + b)[j] == b[j - |a|];
      }
    }
    assert all == parts;
    LinesConcat(ThreadEntries(a), ThreadEntries(b));
  }

  /** The three appends that build one thread's entry. */
  method ThreadStatus(info: ThreadReading) returns (status: string)
    ensures status == ThreadEntry(info)
  {
    var threadStatus := new StrBuilder();
    threadStatus.Append("Thread name =  " + info.name);
    threadStatus.Append(LineSeparator + "\tstate = " + StateName(info.state));
    threadStatus.Append(LineSeparator + "\tCPU time = " + LongToString(info.cpuTime) + " ns");
    status := threadStatus.ToString();
  }

  /** getThreadsStatuses: one entry per thread id, in the order the ids are enumerated. */
  method GetThreadsStatuses(threads: seq<ThreadReading>) returns (text: string)
    ensures text == Lines(ThreadEntries(threads))
  {
    var threadsStatuses := new StrBuilder();
    ghost var entries := ThreadEntries(threads);
    for i := 0 to |threads|
      invariant threadsStatuses.contents == Lines(entries[..i])
    {
      var threadStatus := ThreadStatus(threads[i]);
      LinesStep(entries, i, threadStatus);
      AddToStrBuilderWithLineSeparator(threadsStatuses, threadStatus);
    }
    assert entries[..|threads|] == entries;
    text := threadsStatuses.ToString();
  }

  /** One system property as a `key = value` line. */
  datatype Property = Property(key: string, value: string)

  function PropertyLines(properties: seq<Property>): (lines: seq<string>)
    ensures |lines| == |properties|
    ensures forall i :: 0 <= i < |properties| ==>
      lines[i] == properties[i].key + " = " + properties[i].value
  {
    seq(|properties|, i requires 0 <= i < |properties| => properties[i].key + " = " + properties[i].value)
  }

  /** getSystemProperties: one `key = value` line per property, in the order given. */
  method GetSystemProperties(properties: seq<Property>) returns (text: string)
    ensures text == Lines(PropertyLines(properties))
  {
    var systemPropertiesStrBuilder := new StrBuilder();
    for i := 0 to |properties|
      invariant systemPropertiesStrBuilder.contents == Lines(PropertyLines(properties[..i]))
    {
      var e := properties[i];
      var line := e.key + " = " + e.value;
      LinesSnoc(PropertyLines(properties[..i]), line);
      assert PropertyLines(properties[..i + 1]) == PropertyLines(properties[..i]) + [line];
      AddToStrBuilderWithLineSeparator(systemPropertiesStrBuilder, line);
    }
    assert properties[..|properties|] == properties;
    text := systemPropertiesStrBuilder.ToString();
  }

  // ---------------------------------------------------------------------------
  // The full report
  // ---------------------------------------------------------------------------

  /**
   * Everything toString reads from the host. CPU loads and the load average are
   * `String.valueOf(double)` texts and the start time a `Date` text; these renderings
   * are inputs.
   */
  datatype HostReadings = HostReadings(
    processCpuLoad: string,
    systemCpuLoad: string,
    heapInit: int,
    heapUsed: int,
    heapCommitted: int,
    heapMax: int,
    freeMemory: int,
    maxMemory: int,
    totalMemory: int,
    systemName: string,
    systemVersion: string,
    systemLoad: string,
    availableProcessors: int,
    roots: seq<RootReading>,
    vmVersion: string,
    inputArguments: seq<string>,
    startTime: string,
    upTime: int,
    libraryPath: string,
    classPath: string,
    systemProperties: seq<Property>,
    threadCount: int,
    threads: seq<ThreadReading>)

  /** A line of the report: a fixed banner, or a fixed prefix followed by a value. */
  datatype LayoutItem = Banner(text: string) | Field(prefix: string)

  predicate Fits(piece: string, item: LayoutItem) {
    match item
    case Banner(text) => piece == text
    case Field(prefix) => StartsWith(piece, prefix)
  }

  /** The pieces match the layout one for one, in order. */
  predicate FollowsLayout(pieces: seq<string>, layout: seq<LayoutItem>) {
    |pieces| == |layout| && forall i :: 0 <= i < |pieces| ==> Fits(pieces[i], layout[i])
  }

  lemma FollowsLayoutConcat(p1: seq<string>, l1: seq<LayoutItem>, p2: seq<string>, l2: seq<LayoutItem>)
    requires FollowsLayout(p1, l1) && FollowsLayout(p2, l2)
    ensures FollowsLayout(p1 + p2, l1 + l2)
  {
    forall i | 0 <= i < |p1 + p2| ensures Fits((p1 + p2)[i], (l1 + l2)[i]) {
      if i >= |p1| {
        assert (p1 + p2)[i] == p2[i - |p1|] && (l1 + l2)[i] == l2[i - |p1|];
      }
    }
  }

  const AppInfoBanner: string := "#################### App Info ####################"
  const Rule: string := "#####################################"
  const ClosingBanner: string := "##################################################"

  const CpuLayout: seq<LayoutItem> := [
    Banner("############## CPU ###################"),
    Field("Process CPU load: "),
    Field("System CPU load: "),
    Banner(Rule)
  ]

  const MemoryLayout: seq<LayoutItem> := [
    Banner("############## Memory ################"),
    Field("Heap init: "),
    Field("Heap used: "),
    Field("Heap committed: "),
    Field("Heap max: "),
    Field("Free memory: "),
    Field("Max memory: "),
    Field("Total memory: "),
    Banner(Rule)
  ]

  const SystemLayout: seq<LayoutItem> := [
    Banner("############## System ###############"),
    Field("System name: "),
    Field("System version: "),
    Field("System load in the last minute: "),
    Field("System available processors: "),
    Field("Storage Metrics: "),
    Banner(Rule)
  ]

  const RuntimeLayout: seq<LayoutItem> := [
    Banner("############## Runtime ##############"),
    Field("Java version: "),
    Field("Input Arguments: "),
    Field("Start Time: "),
    Field("Up Time: "),
    Field("Library Path: "),
    Field("Class Path: "),
    Field("System Properties:" + LineSeparator),
    Banner(Rule)
  ]

  const ThreadLayout: seq<LayoutItem> := [
    Banner("############## Thread ###############"),
    Field("Threads count: "),
    Field("Threads statuses: " + LineSeparator),
    Banner(ClosingBanner)
  ]

  /** The report's pieces in the order toString appends them, each followed by a separator. */
  const ReportLayout: seq<LayoutItem> :=
    [Banner(AppInfoBanner)] + CpuLayout + MemoryLayout + SystemLayout + RuntimeLayout + ThreadLayout

  function CpuSection(h: HostReadings): (p: seq<string>)
    ensures FollowsLayout(p, CpuLayout)
  {
    [ "############## CPU ###################",
      "Process CPU load: " + h.processCpuLoad,
      "System CPU load: " + h.systemCpuLoad,
      Rule ]
  }

  /** A memory reading fails to format exactly when it is below 1. */
  predicate MemoryReadingInvalid(h: HostReadings) {
    h.heapInit < 1 || h.heapUsed < 1 || h.heapCommitted < 1 || h.heapMax < 1
    || h.freeMemory < 1 || h.maxMemory < 1 || h.totalMemory < 1
  }

  /** The memory lines, or the exception of the first reading below 1. */
  function MemorySection(h: HostReadings, render: MemoryUtils.NumberRenderer): (r: Result<seq<string>>)
    ensures r.Threw? <==> MemoryReadingInvalid(h)
    ensures r.Threw? ==> r.exception.IllegalArgumentException?
    ensures r.Ok? ==> FollowsLayout(r.value, MemoryLayout)
  {
    var heapInit := MemoryUtils.Representation(h.heapInit, render);
    var heapUsed := MemoryUtils.Representation(h.heapUsed, render);
    var heapCommitted := MemoryUtils.Representation(h.heapCommitted, render);
    var heapMax := MemoryUtils.Representation(h.heapMax, render);
    var freeMemory := MemoryUtils.Representation(h.freeMemory, render);
    var maxMemory := MemoryUtils.Representation(h.maxMemory, render);
    var totalMemory := MemoryUtils.Representation(h.totalMemory, render);
    if heapInit.Threw? then Threw(heapInit.exception)
    else if heapUsed.Threw? then Threw(heapUsed.exception)
    else if heapCommitted.Threw? then Threw(heapCommitted.exception)
    else if heapMax.Threw? then Threw(heapMax.exception)
    else if freeMemory.Threw? then Threw(freeMemory.exception)
    else if maxMemory.Threw? then Threw(maxMemory.exception)
    else if totalMemory.Threw? then Threw(totalMemory.exception)
    else Ok([
      "############## Memory ################",
      "Heap init: " + heapInit.value,
      "Heap used: " + heapUsed.value,
      "Heap committed: " + heapCommitted.value,
      "Heap max: " + heapMax.value,
      "Free memory: " + freeMemory.value,
      "Max memory: " + maxMemory.value,
      "Total memory: " + totalMemory.value,
      Rule ])
  }

  /** The system lines, or the exception that escapes getStorageMetrics. */
  function SystemSection(h: HostReadings, render: MemoryUtils.NumberRenderer): (r: Result<seq<string>>)
    ensures r.Threw? <==> exists i :: 0 <= i < |h.roots| && FormatterThrows(h.roots[i].store)
    ensures r.Ok? ==> FollowsLayout(r.value, SystemLayout)
  {
    match StorageMetrics(h.roots, render)
    case Threw(e) => Threw(e)
    case Ok(storage) => Ok([
      "############## System ###############",
      "System name: " + h.systemName,
      "System version: " + h.systemVersion,
      "System load in the last minute: " + h.systemLoad,
      "System available processors: " + LongToString(h.availableProcessors),
      "Storage Metrics: " + storage,
      Rule ])
  }

  function RuntimeSection(h: HostReadings): (p: seq<string>)
    ensures FollowsLayout(p, RuntimeLayout)
  {
    [ "############## Runtime ##############",
      "Java version: " + h.vmVersion,
      "Input Arguments: " + InputArgumentsText(h.inputArguments),
      "Start Time: " + h.startTime,
      "Up Time: " + UpTimeText(UpTimeFields(h.upTime)),
      "Library Path: " + h.libraryPath,
      "Class Path: " + h.classPath,
      "System Properties:" + LineSeparator + Lines(PropertyLines(h.systemProperties)),
      Rule ]
  }

  function ThreadSection(h: HostReadings): (p: seq<string>)
    ensures FollowsLayout(p, ThreadLayout)
  {
    [ "############## Thread ###############",
      "Threads count: " + LongToString(h.threadCount),
      "Threads statuses: " + LineSeparator + Lines(ThreadEntries(h.threads)),
      ClosingBanner ]
  }

  /**
   * The pieces toString appends, or the first exception a getter throws while they are
   * gathered (the memory readings come before the storage metrics).
   */
  function ReportPieces(h: HostReadings, render: MemoryUtils.NumberRenderer): (r: Result<seq<string>>)
    ensures r.Threw? <==>
      MemoryReadingInvalid(h) || exists i :: 0 <= i < |h.roots| && FormatterThrows(h.roots[i].store)
    ensures r.Threw? ==> r.exception.IllegalArgumentException?
  {
    var memory := MemorySection(h, render);
    var system := SystemSection(h, render);
    if memory.Threw? then Threw(memory.exception)
    else if system.Threw? then Threw(system.exception)
    else Ok([AppInfoBanner] + CpuSection(h) + memory.value + system.value + RuntimeSection(h) + ThreadSection(h))
  }

  /** Every memory reading and every root's capacities are counts the formatter accepts. */
  predicate ReadingsFormat(h: HostReadings) {
    && !MemoryReadingInvalid(h)
    && forall i :: 0 <= i < |h.roots| ==> !FormatterThrows(h.roots[i].store)
  }

  /**
   * Whatever the readings, a report is built from the layout's 34 appended pieces in the
   * same order, each followed by a separator: each banner exactly where the layout puts
   * it, and each field's prefix at the start of its piece. Some pieces (the storage lines,
   * the system properties, the thread statuses) themselves span several lines.
   */
  lemma ReportFollowsLayout(h: HostReadings, render: MemoryUtils.NumberRenderer)
    requires ReadingsFormat(h)
    ensures ReportPieces(h, render).Ok?
    ensures FollowsLayout(ReportPieces(h, render).value, ReportLayout)
  {
    var memory := MemorySection(h, render).value;
    var system := SystemSection(h, render).value;
    SectionsFollowLayout(h, memory, system);
  }

  /** The sections, each following its own layout, follow the report layout when put together. */
  lemma SectionsFollowLayout(h: HostReadings, memory: seq<string>, system: seq<string>)
    requires FollowsLayout(memory, MemoryLayout) && FollowsLayout(system, SystemLayout)
    ensures FollowsLayout([AppInfoBanner] + CpuSection(h) + memory + system + RuntimeSection(h) + ThreadSection(h),
                          ReportLayout)
  {
    var cpu, runtime, thread := CpuSection(h), RuntimeSection(h), ThreadSection(h);
    assert FollowsLayout([AppInfoBanner], [Banner(AppInfoBanner)]);
    FollowsLayoutConcat([AppInfoBanner], [Banner(AppInfoBanner)], cpu, CpuLayout);
    FollowsLayoutConcat([AppInfoBanner] + cpu, [Banner(AppInfoBanner)] + CpuLayout, memory, MemoryLayout);
    FollowsLayoutConcat([AppInfoBanner] + cpu + memory,
      [Banner(AppInfoBanner)] + CpuLayout + MemoryLayout, system, SystemLayout);
    FollowsLayoutConcat([AppInfoBanner] + cpu + memory + system,
      [Banner(AppInfoBanner)] + CpuLayout + MemoryLayout + SystemLayout, runtime, RuntimeLayout);
    FollowsLayoutConcat([AppInfoBanner] + cpu + memory + system + runtime,
      [Banner(AppInfoBanner)] + CpuLayout + MemoryLayout + SystemLayout + RuntimeLayout, thread, ThreadLayout);
  }

  /** Two reports, whatever readings they come from, carry the same banners in the same places. */
  lemma ReportsShareLayout(h1: HostReadings, h2: HostReadings, render: MemoryUtils.NumberRenderer, i: nat)
    requires ReadingsFormat(h1) && ReadingsFormat(h2)
    requires i < |ReportLayout| && ReportLayout[i].Banner?
    ensures ReportPieces(h1, render).Ok? && ReportPieces(h2, render).Ok?
    ensures i < |ReportPieces(h1, render).value| && i < |ReportPieces(h2, render).value|
    ensures ReportPieces(h1, render).value[i] == ReportPieces(h2, render).value[i]
  {
    ReportFollowsLayout(h1, render);
    ReportFollowsLayout(h2, render);
  }

  /** What toString returns: every piece followed by a line separator. */
  function Report(h: HostReadings, render: MemoryUtils.NumberRenderer): Result<string> {
    match ReportPieces(h, render)
    case Ok(pieces) => Ok(Lines(pieces))
    case Threw(e) => Threw(e)
  }

  // The appends of toString, one section at a time. Each section appends its pieces with
  // addToStrBuilderWithLineSeparator; the lemmas below read the builder's new text as the
  // lines of the pieces appended so far.

  lemma LinesFour(done: seq<string>, s0: string, s1: string, s2: string, s3: string)
    ensures Lines(done + [s0, s1, s2, s3]) ==
      Lines(done) + s0 + LineSeparator + s1 + LineSeparator + s2 + LineSeparator + s3 + LineSeparator
  {
    LinesSnoc(done, s0);
    LinesSnoc(done + [s0], s1);
    LinesSnoc(done + [s0] + [s1], s2);
    LinesSnoc(done + [s0] + [s1] + [s2], s3);
    assert done + [s0] + [s1] + [s2] + [s3] == done + [s0, s1, s2, s3];
  }

  lemma LinesSeven(done: seq<string>, s0: string, s1: string, s2: string, s3: string, s4: string,
                   s5: string, s6: string)
    ensures Lines(done + [s0, s1, s2, s3, s4, s5, s6]) ==
      Lines(done) + s0 + LineSeparator + s1 + LineSeparator + s2 + LineSeparator + s3 + LineSeparator
      + s4 + LineSeparator + s5 + LineSeparator + s6 + LineSeparator
  {
    LinesFour(done, s0, s1, s2, s3);
    LinesSnoc(done + [s0, s1, s2, s3], s4);
    LinesSnoc(done + [s0, s1, s2, s3] + [s4], s5);
    LinesSnoc(done + [s0, s1, s2, s3] + [s4] + [s5], s6);
    assert done + [s0, s1, s2, s3] + [s4] + [s5] + [s6] == done + [s0, s1, s2, s3, s4, s5, s6];
  }

  lemma LinesNine(done: seq<string>, s0: string, s1: string, s2: string, s3: string, s4: string,
                  s5: string, s6: string, s7: string, s8: string)
    ensures Lines(done + [s0, s1, s2, s3, s4, s5, s6, s7, s8]) ==
      Lines(done) + s0 + LineSeparator + s1 + LineSeparator + s2 + LineSeparator + s3 + LineSeparator
      + s4 + LineSeparator + s5 + LineSeparator + s6 + LineSeparator + s7 + LineSeparator
      + s8 + LineSeparator
  {
    LinesSeven(done, s0, s1, s2, s3, s4, s5, s6);
    LinesSnoc(done + [s0, s1, s2, s3, s4, s5, s6], s7);
    LinesSnoc(done + [s0, s1, s2, s3, s4, s5, s6] + [s7], s8);
    assert done + [s0, s1, s2, s3, s4, s5, s6] + [s7] + [s8] == done + [s0, s1, s2, s3, s4, s5, s6, s7, s8];
  }

  method AppendCpuSection(jvmMonitorStr: StrBuilder, h: HostReadings, ghost done: seq<string>)
    requires jvmMonitorStr.contents == Lines(done)
    modifies jvmMonitorStr
    ensures jvmMonitorStr.contents == Lines(done + CpuSection(h))
  {
    var banner := "############## CPU ###################";
    AddToStrBuilderWithLineSeparator(jvmMonitorStr, banner);
    var processCpuLoad := "Process CPU load: " + h.processCpuLoad;
    AddToStrBuilderWithLineSeparator(jvmMonitorStr, processCpuLoad);
    var systemCpuLoad := "System CPU load: " + h.systemCpuLoad;
    AddToStrBuilderWithLineSeparator(jvmMonitorStr, systemCpuLoad);
    AddToStrBuilderWithLineSeparator(jvmMonitorStr, Rule);
    LinesFour(done, banner, processCpuLoad, systemCpuLoad, Rule);
  }

  /**
   * The Memory section of toString. When a capacity cannot be formatted the exception
   * leaves toString and the builder is dropped unread, so the lines already appended
   * to it by then are left unspecified.
   */
  method AppendMemorySection(jvmMonitorStr: StrBuilder, h: HostReadings, render: MemoryUtils.NumberRenderer,
                             ghost done: seq<string>)
    returns (escaped: Option<Exception>)
    requires jvmMonitorStr.contents == Lines(done)
    modifies jvmMonitorStr
    ensures escaped.None? <==> MemorySection(h, render).Ok?
    ensures escaped.Some? ==> MemorySection(h, render) == Threw(escaped.value)
    ensures escaped.None? ==> jvmMonitorStr.contents == Lines(done + MemorySection(h, render).value)
  {
    var banner := "############## Memory ################";
    AddToStrBuilderWithLineSeparator(jvmMonitorStr, banner);
    var heapInit := MemoryUtils.ConvertToStringRepresentation(h.heapInit, render);
    if heapInit.Threw? {
      return Some(heapInit.exception);
    }
    AddToStrBuilderWithLineSeparator(jvmMonitorStr, "Heap init: " + heapInit.value);
    var heapUsed := MemoryUtils.ConvertToStringRepresentation(h.heapUsed, render);
    if heapUsed.Threw? {
      return Some(heapUsed.exception);
    }
    AddToStrBuilderWithLineSeparator(jvmMonitorStr, "Heap used: " + heapUsed.value);
    var heapCommitted := MemoryUtils.ConvertToStringRepresentation(h.heapCommitted, render);
    if heapCommitted.Threw? {
      return Some(heapCommitted.exception);
    }
    AddToStrBuilderWithLineSeparator(jvmMonitorStr, "Heap committed: " + heapCommitted.value);
    var heapMax := MemoryUtils.ConvertToStringRepresentation(h.heapMax, render);
    if heapMax.Threw? {
      return Some(heapMax.exception);
    }
    AddToStrBuilderWithLineSeparator(jvmMonitorStr, "Heap max: " + heapMax.value);
    var freeMemory := MemoryUtils.ConvertToStringRepresentation(h.freeMemory, render);
    if freeMemory.Threw? {
      return Some(freeMemory.exception);
    }
    AddToStrBuilderWithLineSeparator(jvmMonitorStr, "Free memory: " + freeMemory.value);
    var maxMemory := MemoryUtils.ConvertToStringRepresentation(h.maxMemory, render);
    if maxMemory.Threw? {
      return Some(maxMemory.exception);
    }
    AddToStrBuilderWithLineSeparator(jvmMonitorStr, "Max memory: " + maxMemory.value);
    var totalMemory := MemoryUtils.ConvertToStringRepresentation(h.totalMemory, render);
    if totalMemory.Threw? {
      return Some(totalMemory.exception);
    }
    AddToStrBuilderWithLineSeparator(jvmMonitorStr, "Total memory: " + totalMemory.value);
    AddToStrBuilderWithLineSeparator(jvmMonitorStr, Rule);
    LinesNine(done, banner, "Heap init: " + heapInit.value, "Heap used: " + heapUsed.value,
      "Heap committed: " + heapCommitted.value, "Heap max: " + heapMax.value,
      "Free memory: " + freeMemory.value, "Max memory: " + maxMemory.value,
      "Total memory: " + totalMemory.value, Rule);
    escaped := None;
  }

  /**
   * The System section of toString. As with the Memory section, when getStorageMetrics
   * throws the builder is dropped unread, so its contents at that point are left
   * unspecified.
   */
  method AppendSystemSection(jvmMonitorStr: StrBuilder, h: HostReadings, render: MemoryUtils.NumberRenderer,
                             ghost done: seq<string>)
    returns (escaped: Option<Exception>)
    requires jvmMonitorStr.contents == Lines(done)
    modifies jvmMonitorStr
    ensures escaped.None? <==> SystemSection(h, render).Ok?
    ensures escaped.Some? ==> SystemSection(h, render) == Threw(escaped.value)
    ensures escaped.None? ==> jvmMonitorStr.contents == Lines(done + SystemSection(h, render).value)
  {
    var banner := "############## System ###############";
    AddToStrBuilderWithLineSeparator(jvmMonitorStr, banner);
    var systemName := "System name: " + h.systemName;
    AddToStrBuilderWithLineSeparator(jvmMonitorStr, systemName);
    var systemVersion := "System version: " + h.systemVersion;
    AddToStrBuilderWithLineSeparator(jvmMonitorStr, systemVersion);
    var systemLoad := "System load in the last minute: " + h.systemLoad;
    AddToStrBuilderWithLineSeparator(jvmMonitorStr, systemLoad);
    var processors := "System available processors: " + LongToString(h.availableProcessors);
    AddToStrBuilderWithLineSeparator(jvmMonitorStr, processors);
    var storage := GetStorageMetrics(h.roots, render);
    if storage.Threw? {
      return Some(storage.exception);
    }
    AddToStrBuilderWithLineSeparator(jvmMonitorStr, "Storage Metrics: " + storage.value);
    AddToStrBuilderWithLineSeparator(jvmMonitorStr, Rule);
    LinesSeven(done, banner, systemName, systemVersion, systemLoad, processors,
      "Storage Metrics: " + storage.value, Rule);
    escaped := None;
  }

  method AppendRuntimeSection(jvmMonitorStr: StrBuilder, h: HostReadings, ghost done: seq<string>)
    requires jvmMonitorStr.contents == Lines(done)
    modifies jvmMonitorStr
    ensures jvmMonitorStr.contents == Lines(done + RuntimeSection(h))
  {
    var banner := "############## Runtime ##############";
    AddToStrBuilderWithLineSeparator(jvmMonitorStr, banner);
    var javaVersion := "Java version: " + h.vmVersion;
    AddToStrBuilderWithLineSeparator(jvmMonitorStr, javaVersion);
    var inputArguments := "Input Arguments: " + InputArgumentsText(h.inputArguments);
    AddToStrBuilderWithLineSeparator(jvmMonitorStr, inputArguments);
    var startTime := "Start Time: " + h.startTime;
    AddToStrBuilderWithLineSeparator(jvmMonitorStr, startTime);
    var upTime := GetUpTime(h.upTime);
    AddToStrBuilderWithLineSeparator(jvmMonitorStr, "Up Time: " + upTime);
    var libraryPath := "Library Path: " + h.libraryPath;
    AddToStrBuilderWithLineSeparator(jvmMonitorStr, libraryPath);
    var classPath := "Class Path: " + h.classPath;
    AddToStrBuilderWithLineSeparator(jvmMonitorStr, classPath);
    var systemProperties := GetSystemProperties(h.systemProperties);
    AddToStrBuilderWithLineSeparator(jvmMonitorStr, "System Properties:" + LineSeparator + systemProperties);
    AddToStrBuilderWithLineSeparator(jvmMonitorStr, Rule);
    LinesNine(done, banner, javaVersion, inputArguments, startTime, "Up Time: " + upTime, libraryPath,
      classPath, "System Properties:" + LineSeparator + systemProperties, Rule);
  }

  method AppendThreadSection(jvmMonitorStr: StrBuilder, h: HostReadings, ghost done: seq<string>)
    requires jvmMonitorStr.contents == Lines(done)
    modifies jvmMonitorStr
    ensures jvmMonitorStr.contents == Lines(done + ThreadSection(h))
  {
    var banner := "############## Thread ###############";
    AddToStrBuilderWithLineSeparator(jvmMonitorStr, banner);
    var threadCount := "Threads count: " + LongToString(h.threadCount);
    AddToStrBuilderWithLineSeparator(jvmMonitorStr, threadCount);
    var threadsStatuses := GetThreadsStatuses(h.threads);
    AddToStrBuilderWithLineSeparator(jvmMonitorStr, "Threads statuses: " + LineSeparator + threadsStatuses);
    AddToStrBuilderWithLineSeparator(jvmMonitorStr, ClosingBanner);
    LinesFour(done, banner, threadCount, "Threads statuses: " + LineSeparator + threadsStatuses, ClosingBanner);
  }

  /** toString: the banners and labelled readings, each appended with a line separator. */
  method ToString(h: HostReadings, render: MemoryUtils.NumberRenderer) returns (r: Result<string>)
    ensures r == Report(h, render)
  {
    var jvmMonitorStr := new StrBuilder();
    AddToStrBuilderWithLineSeparator(jvmMonitorStr, AppInfoBanner);
    LinesSnoc([], AppInfoBanner);
    ghost var done := [AppInfoBanner];
    AppendCpuSection(jvmMonitorStr, h, done);
    done := done + CpuSection(h);
    var escaped := AppendMemorySection(jvmMonitorStr, h, render, done);
    if escaped.Some? {
      return Threw(escaped.value);
    }
    done := done + MemorySection(h, render).value;
    escaped := AppendSystemSection(jvmMonitorStr, h, render, done);
    if escaped.Some? {
      return Threw(escaped.value);
    }
    done := done + SystemSection(h, render).value;
    AppendRuntimeSection(jvmMonitorStr, h, done);
    done := done + RuntimeSection(h);
    AppendThreadSection(jvmMonitorStr, h, done);
    done := done + ThreadSection(h);
    r := Ok(jvmMonitorStr.ToString());
  }
}
