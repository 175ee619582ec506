/**
 * proj1/scheduler/utils.go: the integer minimum and the effects-file parser.
 *
 * The file `../data/effects.txt` is given as a Catalog: either it could not be opened, or it
 * holds the lines the scanner delivered and, possibly, the error that stopped the scanner.
 * `json.Unmarshal` is the parameter `decode`, an arbitrary function from a line to a task or
 * an error message.
 */
module Utils {
  import opened Wrappers
  import opened Tasks

  /** `min(a, b)`: a when a < b, b otherwise. */
  function Min(a: int, b: int): (m: int)
    ensures m <= a && m <= b
    ensures m == a || m == b
    ensures a < b ==> m == a
  {
    if a < b then a else b
  }

  /** What opening and scanning the effects file yields. */
  datatype Catalog =
    | Unopenable(openErr: string)
    | Opened(lines: seq<string>, scanErr: Option<string>)

  /** A line decoder (`json.Unmarshal` into an `ImageTask`). */
  type Decoder = string -> Result<TaskRecord>

  /**
   * The scanner loop: decode the lines in order and stop at the first line that fails,
   * returning its error and no tasks.
   */
  function DecodeAll(lines: seq<string>, decode: Decoder): Result<seq<TaskRecord>>
  {
    if lines == [] then Ok([])
    else
      match DecodeAll(lines[..|lines| - 1], decode)
      case Err(e) => Err(e)
      case Ok(rs) =>
        match decode(lines[|lines| - 1])
        case Err(e) => Err(e)
        case Ok(r) => Ok(rs + [r])
  }

  /**
   * Decoding succeeds exactly when every line decodes, and then it gives one task per line,
   * in line order.
   */
  lemma {:induction false} DecodeAllSucceeds(lines: seq<string>, decode: Decoder)
    ensures DecodeAll(lines, decode).Ok? <==> forall i | 0 <= i < |lines| :: decode(lines[i]).Ok?
    ensures DecodeAll(lines, decode).Ok? ==>
              && |DecodeAll(lines, decode).value| == |lines|
              && forall i | 0 <= i < |lines| :: DecodeAll(lines, decode).value[i] == decode(lines[i]).value
  {
    if lines != [] {
      var init := lines[..|lines| - 1];
      DecodeAllSucceeds(init, decode);
      assert forall i | 0 <= i < |init| :: init[i] == lines[i];
    }
  }

  /** A failed decode reports the error of the first line that fails. */
  lemma {:induction false} DecodeAllFailsFirst(lines: seq<string>, decode: Decoder)
    requires DecodeAll(lines, decode).Err?
    ensures exists i | 0 <= i < |lines| ::
              && decode(lines[i]) == Err(DecodeAll(lines, decode).error)
              && forall j | 0 <= j < i :: decode(lines[j]).Ok?
  {
    var init := lines[..|lines| - 1];
    assert forall i | 0 <= i < |init| :: init[i] == lines[i];
    if DecodeAll(init, decode).Err? {
      DecodeAllFailsFirst(init, decode);
      var i :| 0 <= i < |init| && decode(init[i]) == Err(DecodeAll(init, decode).error)
                && forall j | 0 <= j < i :: decode(init[j]).Ok?;
      assert decode(lines[i]) == Err(DecodeAll(lines, decode).error);
    } else {
      DecodeAllSucceeds(init, decode);
      var i := |lines| - 1;
      assert decode(lines[i]) == Err(DecodeAll(lines, decode).error);
    }
  }

  /**
   * `parseEffectsFile()`: an open failure, a line that fails to decode or a scanner error
   * gives that error; otherwise the decoded tasks.
   */
  function ParseCatalog(file: Catalog, decode: Decoder): Result<seq<TaskRecord>>
  {
    match file
    case Unopenable(e) => Err(e)
    case Opened(lines, scanErr) =>
      match DecodeAll(lines, decode)
      case Err(e) => Err(e)
      case Ok(rs) => if scanErr.Some? then Err(scanErr.value) else Ok(rs)
  }

  /**
   * The parser's outcome, characterised without the fold: it succeeds exactly when the file
   * opened, the scanner stopped without error and every line decoded; then it yields one
   * task per line, in line order.
   */
  lemma ParseCatalogOutcome(file: Catalog, decode: Decoder)
    ensures ParseCatalog(file, decode).Ok? <==>
              && file.Opened? && file.scanErr.None?
              && forall i | 0 <= i < |file.lines| :: decode(file.lines[i]).Ok?
    ensures ParseCatalog(file, decode).Ok? ==>
              && |ParseCatalog(file, decode).value| == |file.lines|
              && forall i | 0 <= i < |file.lines| :: ParseCatalog(file, decode).value[i] == decode(file.lines[i]).value
    ensures file.Unopenable? ==> ParseCatalog(file, decode) == Err(file.openErr)
  {
    if file.Opened? {
      DecodeAllSucceeds(file.lines, decode);
    }
  }

  /**
   * `parseEffectsFile()` (utils.go:10-33): the scanner loop allocates one task per line and
   * returns nil and the error as soon as anything fails.
   */
  method ParseEffectsFile(file: Catalog, decode: Decoder) returns (tasks: seq<ImageTask>, err: Option<string>)
    ensures ParseCatalog(file, decode).Err? ==> tasks == [] && err == Some(ParseCatalog(file, decode).error)
    ensures ParseCatalog(file, decode).Ok? ==> err == None && Records(tasks) == ParseCatalog(file, decode).value
    ensures Distinct(tasks) && forall t | t in tasks :: fresh(t)
  {
    match file
    case Unopenable(e) =>
      return [], Some(e);
    case Opened(lines, scanErr) =>
      tasks := [];
      var i := 0;
      while i < |lines|
        invariant 0 <= i <= |lines|
        invariant DecodeAll(lines[..i], decode).Ok?
        invariant Records(tasks) == DecodeAll(lines[..i], decode).value
        invariant Distinct(tasks) && forall t | t in tasks :: fresh(t)
      {
        assert lines[..i + 1][..i] == lines[..i];
        match decode(lines[i])
        case Err(e) =>
          DecodeAllPrefixFails(lines, decode, i + 1);
          return [], Some(e);
        case Ok(r) =>
          var task := new ImageTask(r);
          tasks := tasks + [task];
        i := i + 1;
      }
      assert lines[..i] == lines;
      if scanErr.Some? {
        return [], scanErr;
      }
      err := None;
  }

  /** Once a prefix of the lines fails to decode, so do all the lines, with the same error. */
  lemma {:induction false} DecodeAllPrefixFails(lines: seq<string>, decode: Decoder, n: nat)
    requires n <= |lines| && DecodeAll(lines[..n], decode).Err?
    ensures DecodeAll(lines, decode) == DecodeAll(lines[..n], decode)
    decreases |lines| - n
  {
    if n < |lines| {
      assert lines[..n + 1][..n] == lines[..n];
      DecodeAllPrefixFails(lines, decode, n + 1);
    } else {
      assert lines[..n] == lines;
    }
  }
}
