/** The text decoders of types/types.go. Each Go `UnmarshalText` assigns
    through its receiver, so each decoder is a class with one field that the
    method overwrites. The file-system probes of `filetext` are an oracle. */
module Types {
  import opened Wrappers
  import opened Strings

  // ---------------------------------------------------------------- Bool

  /** `types.Bool`: a Go bool decoded from exactly "true" or "false". */
  class Bool {
    var value: bool

    /** The Go zero value. */
    constructor ()
      ensures !value
    {
      value := false;
    }

    method UnmarshalText(text: string) returns (err: Option<Error>)
      modifies this
      ensures text == "true" ==> err.None? && value
      ensures text == "false" ==> err.None? && !value
      ensures text != "true" && text != "false" ==> err == Some(NotABoolean) && value == old(value)
    {
      if text == "true" {
        value := true;
      } else if text == "false" {
        value := false;
      } else {
        return Some(NotABoolean);
      }
      return None;
    }
  }

  // --------------------------------------------------------- SliceString

  /** `types.SliceString`: a comma-separated list. */
  class SliceString {
    var value: seq<string>

    constructor ()
      ensures value == []
    {
      value := [];
    }

    /** Never fails; the receiver becomes the comma-separated pieces. */
    method UnmarshalText(text: string) returns (err: Option<Error>)
      modifies this
      ensures err.None?
      ensures value == Split(text, ',')
      ensures |value| == Occurrences(text, ',') + 1
      ensures Join(value, ',') == text
    {
      value := Split(text, ',');
      JoinSplit(text, ',');
      return None;
    }
  }

  // ----------------------------------------------------------- MapString

  /** What `os.Stat` and `os.ReadFile` report for one path. */
  datatype PathInfo =
    | NotExist                               // os.Stat fails with ErrNotExist
    | StatFails(statError: Error)            // os.Stat fails otherwise
    | Exists(contents: Result<string, Error>) // os.Stat succeeds; the read outcome

  /** The file system as seen by the decoder; a path that is not a key does not exist. */
  type FileSystem = map<string, PathInfo>

  function Probe(fs: FileSystem, path: string): PathInfo {
    if path in fs then fs[path] else NotExist
  }

  /** `filetext`: the text itself when no such path exists, else the file's
      contents, or the error of the stat or of the read. */
  function FileText(fs: FileSystem, text: string): (r: Result<string, Error>)
    ensures Probe(fs, text).NotExist? ==> r == Ok(text)
    ensures Probe(fs, text).StatFails? ==> r == Err(Probe(fs, text).statError)
    ensures Probe(fs, text).Exists? ==> r == Probe(fs, text).contents
    ensures r.Err? <==> Probe(fs, text).StatFails? || (Probe(fs, text).Exists? && Probe(fs, text).contents.Err?)
  {
    match Probe(fs, text)
    case NotExist => Ok(text)
    case StatFails(e) => Err(e)
    case Exists(contents) => contents
  }

  /** Entries are separated by commas and by newlines alike. */
  function Lines(text: string): seq<string> {
    Split(Replace(text, ',', '\n'), '\n')
  }

  /** The key and raw value of one entry line: the pieces before the first and
      second `=`; a line without `=` is no entry. */
  function Entry(line: string): Option<(string, string)> {
    var parts := Split(line, '=');
    if |parts| > 1 then Some((parts[0], parts[1])) else None
  }

  predicate HasKey(line: string, k: string) {
    Entry(line).Some? && Entry(line).value.0 == k
  }

  /** The map the entry lines decode to: entries in line order, a later key
      overwriting an earlier one, values resolved through `filetext`, and the
      first resolution error aborting the decoding. */
  function DecodeEntries(fs: FileSystem, lines: seq<string>): Result<map<string, string>, Error>
    decreases |lines|
  {
    if lines == [] then Ok(map[])
    else
      match DecodeEntries(fs, lines[..|lines| - 1])
      case Err(e) => Err(e)
      case Ok(m) =>
        match Entry(lines[|lines| - 1])
        case None => Ok(m)
        case Some(kv) =>
          match FileText(fs, kv.1)
          case Err(e) => Err(e)
          case Ok(t) => Ok(m[kv.0 := t])
  }

  /** The whole decoding: the text itself may name a file holding the entries. */
  function DecodeMapString(fs: FileSystem, text: string): Result<map<string, string>, Error> {
    match FileText(fs, text)
    case Err(e) => Err(e)
    case Ok(t) => DecodeEntries(fs, Lines(t))
  }

  /** `types.MapString`; `None` is the Go nil map. */
  class MapString {
    var value: Option<map<string, string>>

    constructor ()
      ensures value == None
    {
      value := None;
    }

    /** On success the receiver is replaced by the freshly decoded map; on any
        error it is left as it was. */
    method UnmarshalText(fs: FileSystem, b: string) returns (err: Option<Error>)
      modifies this
      ensures err.None? <==> DecodeMapString(fs, b).Ok?
      ensures err.None? ==> value == Some(DecodeMapString(fs, b).value)
      ensures err.Some? ==> err.value == DecodeMapString(fs, b).error && value == old(value)
    {
      var text := FileText(fs, b);
      if text.Err? {
        return Some(text.error);
      }
      var r: map<string, string> := map[];
      var lines := Lines(text.value);
      var i := 0;
      while i < |lines|
        invariant 0 <= i <= |lines|
        invariant DecodeEntries(fs, lines[..i]) == Ok(r)
        invariant value == old(value)
      {
        DecodeEntriesNext(fs, lines, i);
        var split := Split(lines[i], '=');
        if |split| > 1 {
          var v := FileText(fs, split[1]);
          if v.Err? {
            DecodeEntriesErrorSticks(fs, lines, i + 1);
            return Some(v.error);
          }
          r := r[split[0] := v.value];
        }
        i := i + 1;
      }
      assert lines[..i] == lines;
      value := Some(r);
      return None;
    }
  }

  // ------------------------------------------------------------ Properties

  /** One more line: how the decoding of `lines[..i + 1]` follows from that of `lines[..i]`. */
  lemma DecodeEntriesNext(fs: FileSystem, lines: seq<string>, i: nat)
    requires i < |lines|
    ensures DecodeEntries(fs, lines[..i]).Err? ==> DecodeEntries(fs, lines[..i + 1]) == DecodeEntries(fs, lines[..i])
    ensures DecodeEntries(fs, lines[..i]).Ok? && Entry(lines[i]).None? ==>
      DecodeEntries(fs, lines[..i + 1]) == DecodeEntries(fs, lines[..i])
    ensures DecodeEntries(fs, lines[..i]).Ok? && Entry(lines[i]).Some? ==>
      var kv := Entry(lines[i]).value;
      DecodeEntries(fs, lines[..i + 1]) ==
        if FileText(fs, kv.1).Err? then Err(FileText(fs, kv.1).error)
        else Ok(DecodeEntries(fs, lines[..i]).value[kv.0 := FileText(fs, kv.1).value])
  {
    assert lines[..i + 1][..i] == lines[..i];
  }

  /** An error on a prefix of the lines is the error of all of them. */
  lemma {:induction false} DecodeEntriesErrorSticks(fs: FileSystem, lines: seq<string>, n: nat)
    requires n <= |lines|
    requires DecodeEntries(fs, lines[..n]).Err?
    ensures DecodeEntries(fs, lines) == DecodeEntries(fs, lines[..n])
    decreases |lines| - n
  {
    if n < |lines| {
      assert lines[..n + 1][..n] == lines[..n];
      DecodeEntriesErrorSticks(fs, lines, n + 1);
    } else {
      assert lines[..n] == lines;
    }
  }

  /** Commas and newlines both separate entries: no line holds either, and the
      lines joined by newlines are the text with every comma turned into a newline. */
  lemma LinesSeparators(text: string)
    ensures forall i :: 0 <= i < |Lines(text)| ==> ',' !in Lines(text)[i] && '\n' !in Lines(text)[i]
    ensures Join(Lines(text), '\n') == Replace(text, ',', '\n')
  {
    var replaced := Replace(text, ',', '\n');
    JoinSplit(replaced, '\n');
    forall i | 0 <= i < |Lines(text)|
      ensures ',' !in Lines(text)[i]
    {
      ReplaceRemoves(text, ',', '\n');
      SplitPiecesFrom(replaced, '\n', ',');
    }
  }

  lemma ReplaceRemoves(s: string, from: char, to: char)
    requires from != to
    ensures from !in Replace(s, from, to)
  {
  }

  /** A character absent from the text is absent from every piece of its split. */
  lemma {:induction false} SplitPiecesFrom(s: string, sep: char, c: char)
    requires c !in s
    ensures forall i :: 0 <= i < |Split(s, sep)| ==> c !in Split(s, sep)[i]
  {
    if s != [] {
      SplitPiecesFrom(s[1..], sep, c);
    }
  }

  /** An entry exists exactly for a line holding `=`; its key is the text before
      the first `=` and its value the text up to the next `=` or the end of the line. */
  lemma EntryShape(line: string)
    ensures Entry(line).Some? <==> '=' in line
    ensures Entry(line).Some? ==>
      var k, v := Entry(line).value.0, Entry(line).value.1;
      && '=' !in k && '=' !in v
      && |k| + 1 + |v| <= |line|
      && line[..|k|] == k && line[|k|] == '='
      && line[|k| + 1..|k| + 1 + |v|] == v
      && (|k| + 1 + |v| == |line| || line[|k| + 1 + |v|] == '=')
  {
    OccurrencesPositive(line, '=');
    var parts := Split(line, '=');
    if |parts| > 1 {
      JoinSplit(line, '=');
      var k, v := parts[0], parts[1];
      var tail := if |parts| == 2 then [] else ['='] + Join(parts[2..], '=');
      assert Join(parts[1..], '=') == v + tail by {
        if |parts| > 2 {
          assert parts[1..][1..] == parts[2..];
        }
      }
      assert line == k + ['='] + v + tail;
    }
  }

  /** The decoded keys are exactly the keys of the entry lines. */
  lemma {:induction false} DecodedKeys(fs: FileSystem, lines: seq<string>, k: string)
    requires DecodeEntries(fs, lines).Ok?
    ensures k in DecodeEntries(fs, lines).value <==> exists i :: 0 <= i < |lines| && HasKey(lines[i], k)
    decreases |lines|
  {
    if lines != [] {
      var prefix := lines[..|lines| - 1];
      DecodedKeys(fs, prefix, k);
      forall i | 0 <= i < |prefix| ensures prefix[i] == lines[i] { }
      if exists i :: 0 <= i < |lines| && HasKey(lines[i], k) {
        var i :| 0 <= i < |lines| && HasKey(lines[i], k);
        if i < |prefix| {
          assert HasKey(prefix[i], k);
        }
      }
    }
  }

  /** A key's value comes from its last entry line, resolved through `filetext`. */
  lemma {:induction false} LastEntryWins(fs: FileSystem, lines: seq<string>, i: nat)
    requires DecodeEntries(fs, lines).Ok?
    requires i < |lines| && Entry(lines[i]).Some?
    requires forall j :: i < j < |lines| ==> !HasKey(lines[j], Entry(lines[i]).value.0)
    ensures var kv := Entry(lines[i]).value;
      && FileText(fs, kv.1).Ok?
      && kv.0 in DecodeEntries(fs, lines).value
      && DecodeEntries(fs, lines).value[kv.0] == FileText(fs, kv.1).value
    decreases |lines|
  {
    var prefix := lines[..|lines| - 1];
    if i < |lines| - 1 {
      assert prefix[i] == lines[i];
      forall j | i < j < |prefix| ensures !HasKey(prefix[j], Entry(prefix[i]).value.0) {
        assert prefix[j] == lines[j];
      }
      LastEntryWins(fs, prefix, i);
    }
  }

  /** Two comma-separated lines. */
  lemma LinesOfTwo(a: string, b: string)
    requires ',' !in a && ',' !in b && '\n' !in a && '\n' !in b
    ensures Lines(a + [','] + b) == [a, b]
  {
    assert Replace(a + [','] + b, ',', '\n') == a + ['\n'] + b;
    SplitLeadingPiece(a, '\n', b);
    SplitWithoutSeparator(b, '\n');
  }

  /** A line with exactly one `=` is the entry of its two sides. */
  lemma EntryOfPair(k: string, v: string)
    requires '=' !in k && '=' !in v
    ensures Entry(k + ['='] + v) == Some((k, v))
  {
    SplitLeadingPiece(k, '=', v);
    SplitWithoutSeparator(v, '=');
  }

  /** The user data "foo=bar,hello=world" decodes to two entries when neither
      the text nor a value names a path (the text is written in three pieces
      only to keep the verifier from unrolling the split of a literal). */
  lemma UserDataExample(fs: FileSystem)
    requires Probe(fs, "foo=bar" + "," + "hello=world").NotExist?
    requires Probe(fs, "bar").NotExist? && Probe(fs, "world").NotExist?
    ensures DecodeMapString(fs, "foo=bar" + "," + "hello=world") == Ok(map["foo" := "bar", "hello" := "world"])
  {
    var l1, l2 := "foo" + ['='] + "bar", "hello" + ['='] + "world";
    assert "foo=bar" + "," + "hello=world" == l1 + [','] + l2;
    LinesOfTwo(l1, l2);
    var lines := [l1, l2];
    EntryOfPair("foo", "bar");
    EntryOfPair("hello", "world");
    assert lines[..1] == [l1];
    assert lines[..1][..0] == [];
    assert lines[..2] == lines;
    assert DecodeEntries(fs, lines[..1]) == Ok(map["foo" := "bar"]);
  }
}
