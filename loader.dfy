/** The safe loader (`load_json_safely`): whole-document JSON first, then JSON Lines,
    and "no value" when nothing parses. The JSON grammar itself is the parameter
    `parse`, standing for `json.loads` (`None` where it raises `JSONDecodeError`). */
module Loader {
  import opened JsonData
  import opened Text

  /** A report directory: `None` when it does not exist, otherwise the loader's
      result for each file its glob matches, in listing order. */
  type Dir = Option<seq<Option<Json>>>

  /** `if data:` on the loader's result: a file that loaded to a truthy value. */
  predicate Usable(d: Option<Json>) {
    d.Some? && Truthy(d.value)
  }

  /** Whether one line is kept by the JSON Lines pass: it is not blank and it parses. */
  predicate KeptLine(parse: string -> Option<Json>, line: string) {
    Strip(line) != [] && parse(line).Some?
  }

  /** Whether some line of `lines` is kept. */
  predicate AnyKept(parse: string -> Option<Json>, lines: seq<string>) {
    exists k :: 0 <= k < |lines| && KeptLine(parse, lines[k])
  }

  /** The values of the kept lines, in their order. */
  function ParsedLines(parse: string -> Option<Json>, lines: seq<string>): (r: seq<Json>)
    ensures |r| <= |lines|
  {
    if lines == [] then []
    else
      var init := ParsedLines(parse, lines[..|lines| - 1]);
      var last := lines[|lines| - 1];
      if KeptLine(parse, last) then init + [parse(last).value] else init
  }

  /** What `load_json_safely` returns for a file with the given content. */
  function Load(parse: string -> Option<Json>, content: string): Option<Json> {
    var text := Strip(content);
    match parse(text)
    case Some(j) => Some(j)
    case None =>
      var xs := ParsedLines(parse, Split(text));
      if xs == [] then None else Some(JArr(xs))
  }

  /** The loader: parse the stripped content whole; failing that, collect the
      non-blank lines that parse. */
  method LoadJsonSafely(parse: string -> Option<Json>, content: string) returns (r: Option<Json>)
    ensures r == Load(parse, content)
  {
    var text := Strip(content);
    var whole := parse(text);
    if whole.Some? {
      return whole;
    }
    var lines := Split(text);
    var results: seq<Json> := [];
    var i := 0;
    while i < |lines|
      invariant 0 <= i <= |lines|
      invariant results == ParsedLines(parse, lines[..i])
    {
      var line := lines[i];
      if Strip(line) != [] {
        var obj := parse(line);
        if obj.Some? {
          results := results + [obj.value];
        }
      }
      assert lines[..i + 1][..i] == lines[..i];
      i := i + 1;
    }
    assert lines[..i] == lines;
    r := if results == [] then None else Some(JArr(results));
  }

  /** The JSON Lines pass works line by line: the lines of a concatenation give
      the values of the first part followed by those of the second, so the
      original order is kept. */
  lemma {:induction false} ParsedLinesAppend(parse: string -> Option<Json>, a: seq<string>, b: seq<string>)
    ensures ParsedLines(parse, a + b) == ParsedLines(parse, a) + ParsedLines(parse, b)
    decreases |b|
  {
    if b == [] {
      assert a + b == a;
    } else {
      var b' := b[..|b| - 1];
      assert (a + b)[..|a + b| - 1] == a + b';
      assert (a + b)[|a + b| - 1] == b[|b| - 1];
      ParsedLinesAppend(parse, a, b');
    }
  }

  /** Every value of the JSON Lines pass comes from a kept line. */
  lemma {:induction false} ParsedLinesSound(parse: string -> Option<Json>, lines: seq<string>, x: Json)
    requires x in ParsedLines(parse, lines)
    ensures exists k :: 0 <= k < |lines| && KeptLine(parse, lines[k]) && parse(lines[k]) == Some(x)
  {
    var init := lines[..|lines| - 1];
    var last := lines[|lines| - 1];
    if x in ParsedLines(parse, init) {
      ParsedLinesSound(parse, init, x);
      var k :| 0 <= k < |init| && KeptLine(parse, init[k]) && parse(init[k]) == Some(x);
      assert lines[k] == init[k];
    } else {
      assert KeptLine(parse, last) && parse(last) == Some(x);
    }
  }

  /** Every kept line contributes its value. */
  lemma {:induction false} ParsedLinesComplete(parse: string -> Option<Json>, lines: seq<string>, k: nat)
    requires k < |lines| && KeptLine(parse, lines[k])
    ensures parse(lines[k]).value in ParsedLines(parse, lines)
  {
    var init := lines[..|lines| - 1];
    if k < |lines| - 1 {
      assert init[k] == lines[k];
      ParsedLinesComplete(parse, init, k);
    }
  }

  /** Nothing is collected exactly when no line is kept. */
  lemma {:induction false} ParsedLinesEmpty(parse: string -> Option<Json>, lines: seq<string>)
    ensures ParsedLines(parse, lines) == [] <==> !AnyKept(parse, lines)
  {
    if ParsedLines(parse, lines) != [] {
      ParsedLinesSound(parse, lines, ParsedLines(parse, lines)[0]);
    } else if AnyKept(parse, lines) {
      var k :| 0 <= k < |lines| && KeptLine(parse, lines[k]);
      ParsedLinesComplete(parse, lines, k);
    }
  }

  /** The loader's contract: a document that parses whole is returned as it is;
      otherwise the result is the list of the kept lines' values, and "no value"
      exactly when no line is kept; never an empty list. */
  lemma {:induction false} LoadContract(parse: string -> Option<Json>, content: string)
    ensures parse(Strip(content)).Some? ==> Load(parse, content) == parse(Strip(content))
    ensures parse(Strip(content)).None? ==>
      && (Load(parse, content).None? <==> !AnyKept(parse, Split(Strip(content))))
      && (Load(parse, content).Some? ==>
            Load(parse, content) == Some(JArr(ParsedLines(parse, Split(Strip(content)))))
            && ParsedLines(parse, Split(Strip(content))) != [])
  {
    var text := Strip(content);
    var lines := Split(text);
    ParsedLinesEmpty(parse, lines);
  }

  /** A blank file yields "no value" whenever the empty document does not parse
      (`json.loads("")` raises). */
  lemma {:induction false} BlankFileIsAbsent(parse: string -> Option<Json>, content: string)
    requires forall k :: 0 <= k < |content| ==> IsSpace(content[k])
    requires parse([]).None?
    ensures Load(parse, content).None?
  {
    assert Split([]) == [[]];
    assert ParsedLines(parse, [[]]) == ParsedLines(parse, []);
  }

  /** JSON Lines text written back out: for newline-free records none of which
      parses as a whole document when joined, the loader returns exactly the
      records that parse, in order. */
  lemma {:induction false} LoadJsonLines(parse: string -> Option<Json>, records: seq<string>)
    requires |records| >= 1
    requires forall k :: 0 <= k < |records| ==> '\n' !in records[k]
    requires Strip(Join(records)) == Join(records)
    requires parse(Join(records)).None?
    ensures Load(parse, Join(records))
            == if ParsedLines(parse, records) == [] then None else Some(JArr(ParsedLines(parse, records)))
  {
    SplitJoin(records);
  }

  /** The first file of a listing that loaded to a truthy value
      ("use first valid file found"). */
  function FirstUsable(files: seq<Option<Json>>): (r: Option<Json>)
    ensures r.Some? ==> Truthy(r.value)
  {
    if files == [] then None
    else if Usable(files[0]) then files[0]
    else FirstUsable(files[1..])
  }

  /** `FirstUsable` picks the file at the first usable index, whatever follows it. */
  lemma {:induction false} FirstUsableAt(files: seq<Option<Json>>, k: nat)
    requires k < |files| && Usable(files[k])
    requires forall i :: 0 <= i < k ==> !Usable(files[i])
    ensures FirstUsable(files) == files[k]
  {
    if k > 0 {
      assert !Usable(files[0]);
      assert forall i :: 0 <= i < k - 1 ==> files[1..][i] == files[i + 1];
      FirstUsableAt(files[1..], k - 1);
    }
  }

  /** `FirstUsable` finds nothing exactly when no file is usable. */
  lemma {:induction false} FirstUsableNone(files: seq<Option<Json>>)
    ensures FirstUsable(files).None? <==> forall i :: 0 <= i < |files| ==> !Usable(files[i])
  {
    if files != [] && !Usable(files[0]) {
      FirstUsableNone(files[1..]);
      assert forall i :: 1 <= i < |files| ==> files[i] == files[1..][i - 1];
    }
  }

  /** Load every file of a directory listing; `None` for a file stands for
      `FileNotFoundError`. */
  method LoadDirectory(parse: string -> Option<Json>, listing: Option<seq<Option<string>>>) returns (d: Dir)
    ensures d.Some? <==> listing.Some?
    ensures d.Some? ==> |d.value| == |listing.value|
    ensures d.Some? ==> forall k :: 0 <= k < |d.value| ==>
              d.value[k] == if listing.value[k].None? then None else Load(parse, listing.value[k].value)
  {
    if listing.None? {
      return None;
    }
    var files := listing.value;
    var loaded: seq<Option<Json>> := [];
    var i := 0;
    while i < |files|
      invariant 0 <= i <= |files| && |loaded| == i
      invariant forall k :: 0 <= k < i ==>
                  loaded[k] == if files[k].None? then None else Load(parse, files[k].value)
    {
      var one: Option<Json> := None;
      if files[i].Some? {
        one := LoadJsonSafely(parse, files[i].value);
      }
      loaded := loaded + [one];
      i := i + 1;
    }
    d := Some(loaded);
  }
}
