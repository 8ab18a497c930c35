/** The admin tab for product codes: a file-type check on upload, a progress
    bar advanced by a timer in steps of ten, and the code counters the
    finished upload raises. The timer is modelled as discrete ticks and the
    random count as a choice within its range. */
module ProductCodeManagement {
  import opened Common
  import opened JsString

  /** `Math.floor(Math.random() * 10000) + 1000` lies in this range. */
  const MinNewCodes := 1000
  const MaxNewCodes := 10999

  /** The tab's counters as one value. */
  datatype Counters = Counters(totalCodes: int, usedCodes: int, uploading: bool, uploadProgress: int)

  const InitialCounters := Counters(0, 0, false, 0)

  /** What every reachable state satisfies: progress is a multiple of ten
      between 0 and 100, the totals are never negative and `usedCodes`, never
      set by the tab, is still 0. */
  predicate Valid(c: Counters)
  {
    0 <= c.uploadProgress <= 100 && c.uploadProgress % 10 == 0 &&
    c.totalCodes >= 0 && c.usedCodes == 0
  }

  /** The file input accepts names ending in ".csv" or ".xlsx". */
  predicate AcceptedFile(name: string)
  {
    EndsWith(name, ".csv") || EndsWith(name, ".xlsx")
  }

  /** The effect of choosing a file; None when no file was chosen. */
  function Upload(c: Counters, file: Option<string>): (r: (Counters, Option<Toast>))
    ensures file.None? ==> r == (c, None)
    ensures file.Some? && !AcceptedFile(file.value) ==> r == (c, Some(InvalidFileType))
    ensures file.Some? && AcceptedFile(file.value) ==>
      r == (c.(uploading := true, uploadProgress := 0), None)
  {
    if file.None? then (c, None)
    else if !AcceptedFile(file.value) then (c, Some(InvalidFileType))
    else (c.(uploading := true, uploadProgress := 0), None)
  }

  /** One timer tick while uploading. Below 100 progress advances by ten;
      at 100 the timer stops, uploading ends and `newCodes` are added. */
  function Tick(c: Counters, newCodes: int): Counters
  {
    if c.uploadProgress >= 100 then
      c.(uploading := false, uploadProgress := 100, totalCodes := c.totalCodes + newCodes)
    else
      c.(uploadProgress := c.uploadProgress + 10)
  }

  /** Codes not yet used. */
  function Available(c: Counters): int
  {
    c.totalCodes - c.usedCodes
  }

  /** The usage-rate bar is shown only while there are codes, so its division
      never divides by zero. */
  predicate ShowsUsageRate(c: Counters)
  {
    c.totalCodes > 0
  }

  /** Choosing a file and ticking both keep the state valid, and the total
      never goes down. */
  lemma UploadKeepsValid(c: Counters, file: Option<string>)
    requires Valid(c)
    ensures Valid(Upload(c, file).0)
    ensures Upload(c, file).0.totalCodes == c.totalCodes
  {
  }

  lemma TickKeepsValid(c: Counters, newCodes: int)
    requires Valid(c) && MinNewCodes <= newCodes <= MaxNewCodes
    ensures Valid(Tick(c, newCodes))
    ensures Tick(c, newCodes).totalCodes >= c.totalCodes
    ensures Available(Tick(c, newCodes)) == Tick(c, newCodes).totalCodes
  {
  }

  /** The ticks of one upload, each with the count it would add. */
  function Run(c: Counters, counts: seq<int>): Counters
    decreases |counts|
  {
    if |counts| == 0 then c else Run(Tick(c, counts[0]), counts[1..])
  }

  /** After an accepted file, ten ticks bring progress to 100 in steps of ten
      with the upload still running and the total unchanged. */
  lemma {:induction false} TicksAdvance(c: Counters, counts: seq<int>)
    requires c.uploading && c.uploadProgress % 10 == 0
    requires 0 <= c.uploadProgress && c.uploadProgress + 10 * |counts| <= 100
    ensures Run(c, counts) == c.(uploadProgress := c.uploadProgress + 10 * |counts|)
    decreases |counts|
  {
    if |counts| > 0 {
      TicksAdvance(Tick(c, counts[0]), counts[1..]);
    }
  }

  /** The eleventh tick completes the upload: uploading ends at progress 100
      and the total has grown by that tick's count, which lies in
      [1000, 10999]; from then on the usage rate is shown. */
  lemma UploadCompletes(c: Counters, file: string, counts: seq<int>)
    requires Valid(c) && AcceptedFile(file) && |counts| == 11
    requires forall i :: 0 <= i < |counts| ==> MinNewCodes <= counts[i] <= MaxNewCodes
    ensures var done := Run(Upload(c, Some(file)).0, counts);
      && !done.uploading && done.uploadProgress == 100
      && done.totalCodes == c.totalCodes + counts[10]
      && MinNewCodes <= done.totalCodes - c.totalCodes <= MaxNewCodes
      && Valid(done) && ShowsUsageRate(done)
  {
    var started := Upload(c, Some(file)).0;
    TicksAdvance(started, counts[..10]);
    RunSplit(started, counts[..10], counts[10..]);
    assert counts[..10] + counts[10..] == counts;
    assert counts[10..][1..] == [];
  }

  lemma {:induction false} RunSplit(c: Counters, first: seq<int>, second: seq<int>)
    ensures Run(c, first + second) == Run(Run(c, first), second)
    decreases |first|
  {
    if |first| > 0 {
      assert (first + second)[1..] == first[1..] + second;
      RunSplit(Tick(c, first[0]), first[1..], second);
    } else {
      assert first + second == second;
    }
  }

  class ProductCodePanel {
    var totalCodes: int
    var usedCodes: int
    var uploading: bool
    var uploadProgress: int

    function State(): Counters
      reads this
    {
      Counters(totalCodes, usedCodes, uploading, uploadProgress)
    }

    constructor ()
      ensures State() == InitialCounters && Valid(State())
    {
      totalCodes := 0;
      usedCodes := 0;
      uploading := false;
      uploadProgress := 0;
    }

    /** `handleFileUpload`. The input is disabled while an upload runs. */
    method HandleFileUpload(file: Option<string>) returns (toast: Option<Toast>)
      requires !uploading
      modifies this
      ensures (State(), toast) == Upload(old(State()), file)
    {
      toast := None;
      if file.None? {
        return;
      }
      if !EndsWith(file.value, ".csv") && !EndsWith(file.value, ".xlsx") {
        toast := Some(InvalidFileType);
        return;
      }
      uploading := true;
      uploadProgress := 0;
    }

    /** One interval callback. The interval exists only while uploading. */
    method OnTick() returns (toast: Option<Toast>, newCodes: int)
      requires uploading
      modifies this
      ensures MinNewCodes <= newCodes <= MaxNewCodes
      ensures State() == Tick(old(State()), newCodes)
      ensures toast == (if old(uploadProgress) >= 100 then Some(UploadSuccessful) else None)
    {
      newCodes :| MinNewCodes <= newCodes <= MaxNewCodes;
      toast := None;
      if uploadProgress >= 100 {
        uploading := false;
        totalCodes := totalCodes + newCodes;
        toast := Some(UploadSuccessful);
        uploadProgress := 100;
      } else {
        uploadProgress := uploadProgress + 10;
      }
    }
  }
}
