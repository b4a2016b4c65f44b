/**
 * The image upload validators of src/lib/utils.ts, which
 * src/services/products.service.ts repeats as static members with the same
 * bodies: the type allow-list, the size limit, and `processImageFiles`,
 * which validates and converts every file and fails the whole batch if any
 * file fails. The browser's `FileReader` conversion is a parameter.
 */
module ImageFiles {
  import opened Wrappers

  /** The fields of a browser `File` the validators read; `size` in bytes. */
  datatype File = File(name: string, mimeType: string, size: int)

  const ValidTypes: seq<string> := ["image/jpeg", "image/png", "image/webp", "image/gif"]

  /** 5 MiB */
  const DefaultMaxSize: int := 5 * 1024 * 1024

  /** `isValidImageType` */
  predicate IsValidImageType(f: File) {
    f.mimeType in ValidTypes
  }

  /** `isValidImageSize`; `None` takes the default limit. The limit is
      inclusive. */
  predicate IsValidImageSize(f: File, maxSize: Option<int>) {
    f.size <= maxSize.GetOr(DefaultMaxSize)
  }

  /** The allow-list is exactly the four image types, and the size limit
      is 5242880 bytes unless another is given, the boundary included. */
  lemma ValidatorBounds(f: File, maxSize: Option<int>)
    ensures IsValidImageType(f) <==>
      f.mimeType == "image/jpeg" || f.mimeType == "image/png" || f.mimeType == "image/webp" || f.mimeType == "image/gif"
    ensures maxSize.None? ==> (IsValidImageSize(f, maxSize) <==> f.size <= 5242880)
    ensures maxSize.Some? ==> (IsValidImageSize(f, maxSize) <==> f.size <= maxSize.value)
  {
  }

  /** The options object; absent fields take their defaults. */
  datatype Options = Options(maxSize: Option<int>, validateType: Option<bool>)

  /** Why one file was rejected. */
  datatype FileError = InvalidType(mimeType: string) | TooLarge(name: string, maxSize: int) | ReadFailed(reason: string)

  /** One element of the result: the data URL, the file and its position. */
  datatype Processed = Processed(url: string, file: File, index: nat)

  /** The per-file async callback, settled. */
  function Settle(f: File, index: nat, opts: Options, toBase64: File -> Result<string, string>): (r: Result<Processed, FileError>)
    ensures r.Success? <==>
      (!opts.validateType.GetOr(true) || IsValidImageType(f)) && IsValidImageSize(f, opts.maxSize) && toBase64(f).Success?
    ensures r.Success? ==> r.value == Processed(toBase64(f).value, f, index)
    // the type is checked first, and only when validation is on
    ensures opts.validateType.GetOr(true) && !IsValidImageType(f) ==> r == Failure(InvalidType(f.mimeType))
    ensures !opts.validateType.GetOr(true) ==> r != Failure(InvalidType(f.mimeType))
    ensures (!opts.validateType.GetOr(true) || IsValidImageType(f)) && !IsValidImageSize(f, opts.maxSize) ==>
      r == Failure(TooLarge(f.name, opts.maxSize.GetOr(DefaultMaxSize)))
  {
    if opts.validateType.GetOr(true) && !IsValidImageType(f) then Failure(InvalidType(f.mimeType))
    else if !IsValidImageSize(f, opts.maxSize) then Failure(TooLarge(f.name, opts.maxSize.GetOr(DefaultMaxSize)))
    else match toBase64(f)
      case Success(url) => Success(Processed(url, f, index))
      case Failure(e) => Failure(ReadFailed(e))
  }

  /** `Promise.allSettled(files.map(...))`, from position `from` on. */
  function SettleFrom(files: seq<File>, from: nat, opts: Options, toBase64: File -> Result<string, string>)
    : (rs: seq<Result<Processed, FileError>>)
    requires from <= |files|
    ensures |rs| == |files| - from
    ensures forall i :: 0 <= i < |rs| ==> rs[i] == Settle(files[from + i], from + i, opts, toBase64)
    decreases |files| - from
  {
    if from == |files| then []
    else [Settle(files[from], from, opts, toBase64)] + SettleFrom(files, from + 1, opts, toBase64)
  }

  /** The fulfilled values, in order. */
  function Successes(rs: seq<Result<Processed, FileError>>): seq<Processed> {
    if |rs| == 0 then []
    else (if rs[0].Success? then [rs[0].value] else []) + Successes(rs[1..])
  }

  /** The rejection reasons, in order. */
  function Failures(rs: seq<Result<Processed, FileError>>): seq<FileError> {
    if |rs| == 0 then []
    else (if rs[0].Failure? then [rs[0].error] else []) + Failures(rs[1..])
  }

  /** The batch error: how many files failed, and why. */
  datatype BatchError = BatchError(failedCount: nat, reasons: seq<FileError>)

  /** `processImageFiles` */
  function ProcessImageFiles(files: seq<File>, opts: Options, toBase64: File -> Result<string, string>)
    : Result<seq<Processed>, BatchError>
  {
    var settled := SettleFrom(files, 0, opts, toBase64);
    var failed := Failures(settled);
    if |failed| > 0 then Failure(BatchError(|failed|, failed)) else Success(Successes(settled))
  }

  /** Every settled result is either fulfilled or rejected. */
  lemma {:induction false} SuccessesAndFailuresPartition(rs: seq<Result<Processed, FileError>>)
    ensures |Successes(rs)| + |Failures(rs)| == |rs|
  {
    if |rs| > 0 {
      SuccessesAndFailuresPartition(rs[1..]);
    }
  }

  lemma {:induction false} NoFailuresAllSucceed(rs: seq<Result<Processed, FileError>>, i: nat)
    requires |Failures(rs)| == 0 && i < |rs|
    ensures rs[i].Success?
  {
    if i > 0 {
      NoFailuresAllSucceed(rs[1..], i - 1);
    }
  }

  lemma {:induction false} NoFailuresKeepsAll(rs: seq<Result<Processed, FileError>>)
    requires |Failures(rs)| == 0
    ensures |Successes(rs)| == |rs|
    ensures forall i :: 0 <= i < |rs| ==> rs[i].Success? && Successes(rs)[i] == rs[i].value
  {
    if |rs| > 0 {
      NoFailuresAllSucceed(rs, 0);
      NoFailuresKeepsAll(rs[1..]);
    }
  }

  lemma {:induction false} FailureCountIsFailingFiles(rs: seq<Result<Processed, FileError>>)
    ensures |Failures(rs)| > 0 <==> exists i :: 0 <= i < |rs| && rs[i].Failure?
  {
    if |rs| > 0 {
      FailureCountIsFailingFiles(rs[1..]);
      if exists i :: 0 <= i < |rs| && rs[i].Failure? {
        var i :| 0 <= i < |rs| && rs[i].Failure?;
        if i > 0 { assert rs[1..][i - 1].Failure?; }
      }
      if exists i :: 0 <= i < |rs[1..]| && rs[1..][i].Failure? {
        var i :| 0 <= i < |rs[1..]| && rs[1..][i].Failure?;
        assert rs[i + 1].Failure?;
      }
    }
  }

  /** All or nothing: the batch fails exactly when some file fails, with
      the number of failing files; otherwise it returns one result per
      file, in input order, each with its own index. */
  lemma ProcessImageFilesOutcome(files: seq<File>, opts: Options, toBase64: File -> Result<string, string>)
    ensures var r := ProcessImageFiles(files, opts, toBase64);
      && (r.Failure? <==> exists i :: 0 <= i < |files| && Settle(files[i], i, opts, toBase64).Failure?)
      && (r.Failure? ==> 1 <= r.error.failedCount <= |files| && r.error.failedCount == |r.error.reasons|)
      && (r.Success? ==> (
            && |r.value| == |files|
            && forall i :: 0 <= i < |files| ==>
                 toBase64(files[i]).Success? && r.value[i] == Processed(toBase64(files[i]).value, files[i], i)))
  {
    var settled := SettleFrom(files, 0, opts, toBase64);
    FailureCountIsFailingFiles(settled);
    SuccessesAndFailuresPartition(settled);
    if |Failures(settled)| == 0 {
      NoFailuresKeepsAll(settled);
      forall i | 0 <= i < |files|
        ensures toBase64(files[i]).Success? && Successes(settled)[i] == Processed(toBase64(files[i]).value, files[i], i)
      {
        assert settled[i] == Settle(files[i], i, opts, toBase64);
      }
    }
  }
}
