/**
  * The guest's side of mounts.cfg: how init reads the file, which entry becomes
  * the root file system and which ones are mounted, and that this is what the
  * builder wrote.
  */
module GuestMounts {
  import opened Options
  import opened Text
  import opened ConfigTypes
  import opened DeviceNames

  /** sizeof line, less the terminating zero. */
  const LINE_MAX := 1023

  /** What fgets returns: up to and with the next newline, and no more than fits. */
  function NextLine(text: string): (line: string)
    requires text != ""
    ensures line != "" && line <= text && |line| <= LINE_MAX
  {
    var n := Find(text, '\n') + 1;
    text[..if n <= LINE_MAX && n <= |text| then n else if |text| <= LINE_MAX then |text| else LINE_MAX]
  }

  /** The position after the next c, or a position after the end. */
  function After(line: string, from: nat, c: char): (next: nat)
    requires from <= |line|
    ensures from < next <= |line| + 1
  {
    from + Find(line[from..], c) + 1
  }

  /** The fields of a line, cut at three tabs and the newline; without them init does not survive. */
  function ParseLine(line: string): Option<Entry> {
    var t := After(line, 0, '\t');
    if t > |line| then None
    else
      var f := After(line, t, '\t');
      if f > |line| then None
      else
        var o := After(line, f, '\t');
        if o > |line| then None
        else
          var l := After(line, o, '\n');
          if l > |line| then None
          else Some(EntryAt(line, t, f, o, l))
  }

  function EntryAt(line: string, t: nat, f: nat, o: nat, l: nat): Entry
    requires 0 < t < f < o < l <= |line|
  {
    Entry(line[..t - 1], line[t..f - 1], line[f..o - 1], line[o..l - 1])
  }

  /** The strings of a cut buffer. */
  function EntryIn(buffer: seq<char>, target: nat, fstype: nat, options: nat): Entry
    requires target <= |buffer| && fstype <= |buffer| && options <= |buffer|
  {
    Entry(CString(buffer, 0), CString(buffer, target), CString(buffer, fstype), CString(buffer, options))
  }

  function ParseFile(text: string): Option<seq<Entry>>
    decreases |text|
  {
    if text == "" then Some([])
    else
      var line := NextLine(text);
      var e := ParseLine(line);
      var rest := ParseFile(text[|line|..]);
      if e.None? || rest.None? then None else Some([e.value] + rest.value)
  }

  // Fields cut in place.

  /** The string that starts at a position of a buffer. */
  function CString(buffer: seq<char>, from: nat): string
    requires from <= |buffer|
  {
    buffer[from..from + Find(buffer[from..], '\0')]
  }

  /** strchr, then a zero in place of the character; the position after it. */
  method Cut(buffer: array<char>, from: nat, c: char, ghost line: string) returns (next: nat)
    requires from <= |line| < buffer.Length && buffer[from..|line|] == line[from..]
    requires After(line, from, c) <= |line|
    modifies buffer
    ensures next == After(line, from, c)
    ensures buffer[..] == old(buffer[..])[next - 1 := '\0']
    ensures buffer[next..|line|] == line[next..]
  {
    next := from;
    ghost var n := Find(line[from..], c);
    while buffer[next] != c
      invariant from <= next <= from + n < |line|
      invariant buffer[..] == old(buffer[..])
      decreases |line| - next
    {
      assert buffer[next] == buffer[from..|line|][next - from] == line[from..][next - from];
      next := next + 1;
    }
    assert buffer[from..|line|][next - from] == line[from..][next - from] == c;
    FindHere(line[from..], c, next - from);
    buffer[next] := '\0';
    next := next + 1;
    assert buffer[next..|line|] == old(buffer[from..|line|])[next - from..];
  }

  lemma CStringIs(buffer: seq<char>, from: nat, n: nat)
    requires from + n < |buffer| && buffer[from + n] == '\0' && HasNo(buffer[from..from + n], '\0')
    ensures CString(buffer, from) == buffer[from..from + n]
  {
    var s := buffer[from..];
    assert s == buffer[from..from + n] + ['\0'] + buffer[from + n + 1..];
    FindIs(buffer[from..from + n], '\0', buffer[from + n + 1..]);
  }

  /** The buffer after the four cuts. */
  function CutBuffer(b: seq<char>, t: nat, f: nat, o: nat, l: nat): seq<char>
    requires 0 < t < f < o < l < |b|
  {
    b[t - 1 := '\0'][f - 1 := '\0'][o - 1 := '\0'][l - 1 := '\0']
  }

  lemma CutStrings(b: seq<char>, line: string, t: nat, f: nat, o: nat, l: nat)
    requires |line| < |b| && b[..|line|] == line && HasNo(line, '\0') && 0 < t < f < o < l <= |line|
    ensures EntryIn(CutBuffer(b, t, f, o, l), t, f, o) == EntryAt(line, t, f, o, l)
  {
    hide CString, HasNo, CutBuffer, Find;
    var n := CutBuffer(b, t, f, o, l);
    CutPart(b, t, f, o, l, 0, t - 1);
    CutPart(b, t, f, o, l, t, f - 1);
    CutPart(b, t, f, o, l, f, o - 1);
    CutPart(b, t, f, o, l, o, l - 1);
    CutString(b, line, n, 0, t - 1);
    CutString(b, line, n, t, f - 1);
    CutString(b, line, n, f, o - 1);
    CutString(b, line, n, o, l - 1);
    assert line[0..t - 1] == line[..t - 1];
  }

  /** Cutting leaves the fields as they are. */
  lemma CutPart(b: seq<char>, t: nat, f: nat, o: nat, l: nat, from: nat, to: nat)
    requires 0 < t < f < o < l < |b|
    requires (from, to) in {(0, t - 1), (t, f - 1), (f, o - 1), (o, l - 1)}
    ensures var n := CutBuffer(b, t, f, o, l); |n| == |b| && n[to] == '\0' && n[from..to] == b[from..to]
  {
  }

  lemma CutString(b: seq<char>, line: string, n: seq<char>, from: nat, to: nat)
    requires |line| < |b| == |n| && b[..|line|] == line && HasNo(line, '\0') && from <= to < |line|
    requires n[to] == '\0' && n[from..to] == b[from..to]
    ensures CString(n, from) == line[from..to]
  {
    assert line[..to] == b[..to];
    hide CString;
    CStringIs(n, from, to - from);
  }

  /**
    * The cutting of a line in init's shared buffer, which holds the line and a
    * zero behind it: afterwards source (at 0), target, type and options are the
    * fields of the line, as strings of the same buffer.
    */
  method CutLine(buffer: array<char>, ghost line: string) returns (target: nat, fstype: nat, options: nat)
    requires |line| < buffer.Length && buffer[..|line|] == line && buffer[|line|] == '\0'
    requires HasNo(line, '\0') && ParseLine(line).Some?
    modifies buffer
    ensures target <= fstype <= options < buffer.Length
    ensures ParseLine(line) == Some(EntryIn(buffer[..], target, fstype, options))
  {
    hide ParseLine, EntryIn, After, HasNo, CutBuffer, Find;
    ghost var b := buffer[..];
    assert b[..|line|] == line;
    var end;
    target, fstype, options, end := CutAll(buffer, line);
    CutFields(b, line, target, fstype, options, end, buffer[..]);
  }

  lemma CutFields(b: seq<char>, line: string, t: nat, f: nat, o: nat, l: nat, n: seq<char>)
    requires |line| < |b| && b[..|line|] == line && HasNo(line, '\0') && ParseLine(line).Some?
    requires 0 < t < f < o < l <= |line| && n == CutBuffer(b, t, f, o, l)
    requires t == After(line, 0, '\t') && f == After(line, t, '\t')
    requires o == After(line, f, '\t') && l == After(line, o, '\n')
    ensures ParseLine(line) == Some(EntryIn(n, t, f, o))
  {
    ParseIs(line);
    hide ParseLine, EntryAt, EntryIn, After, HasNo, CutBuffer, Find;
    CutStrings(b, line, t, f, o, l);
  }

  method CutAll(buffer: array<char>, ghost line: string) returns (target: nat, fstype: nat, options: nat, end: nat)
    requires |line| < buffer.Length && buffer[..|line|] == line && ParseLine(line).Some?
    modifies buffer
    ensures 0 < target < fstype < options < end <= |line|
    ensures target == After(line, 0, '\t') && fstype == After(line, target, '\t')
    ensures options == After(line, fstype, '\t') && end == After(line, options, '\n')
    ensures buffer[..] == CutBuffer(old(buffer[..]), target, fstype, options, end)
  {
    ParseIs(line);
    assert buffer[0..|line|] == line[0..];
    hide ParseLine, After, HasNo;
    target := Cut(buffer, 0, '\t', line);
    fstype := Cut(buffer, target, '\t', line);
    options := Cut(buffer, fstype, '\t', line);
    end := Cut(buffer, options, '\n', line);
  }

  lemma ParseIs(line: string)
    requires ParseLine(line).Some?
    ensures var t := After(line, 0, '\t');
            t <= |line| &&
            var f := After(line, t, '\t');
            f <= |line| &&
            var o := After(line, f, '\t');
            o <= |line| &&
            var l := After(line, o, '\n');
            l <= |line| && ParseLine(line) == Some(EntryAt(line, t, f, o, l))
  {
    hide After;
  }

  // What is written is what is read.

  /** No field can be taken for a separator, and the line fits init's buffer. */
  predicate Clean(e: Entry) {
    && HasNo(e.source, '\t') && HasNo(e.target, '\t') && HasNo(e.fstype, '\t')
    && HasNo(e.source, '\n') && HasNo(e.target, '\n') && HasNo(e.fstype, '\n') && HasNo(e.options, '\n')
    && |Line(e)| <= LINE_MAX
  }

  lemma AfterIs(line: string, from: nat, field: string, c: char, rest: string)
    requires from <= |line| && line[from..] == field + [c] + rest && HasNo(field, c)
    ensures After(line, from, c) == from + |field| + 1 <= |line|
    ensures line[from..from + |field|] == field && line[from + |field| + 1..] == rest
  {
    FindIs(field, c, rest);
    assert line[from..][..|field|] == field;
    assert line[from..][|field| + 1..] == rest;
  }

  lemma ParseAt(line: string, t: nat, f: nat, o: nat, l: nat)
    requires 0 < t < f < o < l <= |line|
    requires After(line, 0, '\t') == t && After(line, t, '\t') == f
    requires After(line, f, '\t') == o && After(line, o, '\n') == l
    ensures ParseLine(line) == Some(EntryAt(line, t, f, o, l))
  {
    hide After, EntryAt;
  }

  lemma ParseBack(e: Entry)
    requires HasNo(e.source, '\t') && HasNo(e.target, '\t') && HasNo(e.fstype, '\t') && HasNo(e.options, '\n')
    ensures ParseLine(Line(e)) == Some(e)
  {
    var line := Line(e);
    var t := |e.source| + 1;
    var f := t + |e.target| + 1;
    var o := f + |e.fstype| + 1;
    LineSuffixes(e);
    hide After, HasNo, Line, ParseLine;
    var r3 := e.options + "\n";
    var r2 := e.fstype + "\t" + r3;
    var r1 := e.target + "\t" + r2;
    AfterIs(line, 0, e.source, '\t', r1);
    AfterIs(line, t, e.target, '\t', r2);
    AfterIs(line, f, e.fstype, '\t', r3);
    assert r3 == e.options + "\n" + "";
    AfterIs(line, o, e.options, '\n', "");
    ParseAt(line, t, f, o, o + |e.options| + 1);
  }

  lemma Joined(a: string, b: string, c: string)
    ensures (a + b) + c == a + (b + c)
  {
  }

  lemma LineIs(e: Entry)
    ensures Line(e) == e.source + "\t" + (e.target + "\t" + (e.fstype + "\t" + (e.options + "\n")))
  {
    var s, t, f := e.source + "\t", e.target + "\t", e.fstype + "\t";
    Joined(s, e.target, "\t");
    Joined(s + t, e.fstype, "\t");
    Joined(s + t + f, e.options, "\n");
    Joined(s + t, f, e.options + "\n");
    Joined(s, t, f + (e.options + "\n"));
  }

  lemma LineSuffixes(e: Entry)
    ensures var line, t := Line(e), |e.source| + 1;
            var f := t + |e.target| + 1;
            var o := f + |e.fstype| + 1;
            && |line| == o + |e.options| + 1
            && line[0..] == e.source + "\t" + (e.target + "\t" + (e.fstype + "\t" + (e.options + "\n")))
            && line[t..] == e.target + "\t" + (e.fstype + "\t" + (e.options + "\n"))
            && line[f..] == e.fstype + "\t" + (e.options + "\n")
            && line[o..] == e.options + "\n"
  {
    var r3 := e.options + "\n";
    var r2 := e.fstype + "\t" + r3;
    var r1 := e.target + "\t" + r2;
    LineIs(e);
    hide Line;
    Suffix(e.source, r1, Line(e), 0);
    Suffix(e.target, r2, Line(e), |e.source| + 1);
    Suffix(e.fstype, r3, Line(e), |e.source| + 1 + |e.target| + 1);
  }

  lemma Suffix(field: string, rest: string, line: string, from: nat)
    requires from <= |line| && line[from..] == field + "\t" + rest
    ensures from + |field| + 1 <= |line| && line[from + |field| + 1..] == rest
  {
    assert line[from..][|field| + 1..] == rest;
  }

  /** The newline of a clean line is its last character, so fgets returns the line. */
  lemma NextIs(e: Entry, rest: string)
    requires Clean(e)
    ensures NextLine(Line(e) + rest) == Line(e)
  {
    var body := e.source + "\t" + e.target + "\t" + e.fstype + "\t" + e.options;
    assert HasNo(body, '\n');
    assert Line(e) == body + "\n";
    assert Line(e) + rest == body + "\n" + rest;
    FindIs(body, '\n', rest);
  }

  lemma FileBack(e: Entry, rest: string)
    requires Clean(e)
    ensures ParseFile(Line(e) + rest) == if ParseFile(rest).None? then None else Some([e] + ParseFile(rest).value)
  {
    NextIs(e, rest);
    ParseBack(e);
    hide Line, ParseLine, NextLine, Clean;
    var text := Line(e) + rest;
    assert text[|Line(e)|..] == rest;
    assert Line(e) != "" by { LineNotEmpty(e); }
  }

  lemma LineNotEmpty(e: Entry)
    ensures Line(e) != ""
  {
  }

  /** A line by itself is read back as it was written if and only if it is clean. */
  lemma LineSurvives(e: Entry)
    ensures ParseFile(Line(e)) == Some([e]) <==> Clean(e)
  {
    if Clean(e) {
      FileBack(e, "");
      assert Line(e) + "" == Line(e);
      assert [e] + [] == [e];
    } else if ParseFile(Line(e)) == Some([e]) {
      MustBeClean(e);
    }
  }

  lemma MustBeClean(e: Entry)
    requires ParseFile(Line(e)) == Some([e])
    ensures Clean(e)
  {
    var text := Line(e);
    LineNotEmpty(e);
    var line := NextLine(text);
    OneLine(text, e);
    assert line == text;
    var body := e.source + "\t" + e.target + "\t" + e.fstype + "\t" + e.options;
    assert text == body + "\n";
    assert HasNo(body, '\n') by { OnlyAtEnd(text); assert text[..|text| - 1] == body; }
    FieldsOf(body, e);
    ParsedHasNoTab(text, e);
  }

  lemma SomeEntries(text: string)
    requires text != "" && ParseFile(text).Some?
    ensures ParseFile(text).value != []
  {
    hide ParseLine, NextLine;
  }

  /** One entry comes from one line. */
  lemma OneLine(text: string, e: Entry)
    requires text != "" && ParseFile(text) == Some([e])
    ensures NextLine(text) == text && ParseLine(text) == Some(e)
  {
    var line := NextLine(text);
    var rest := text[|line|..];
    assert ParseFile(text).value == [ParseLine(line).value] + ParseFile(rest).value;
    assert ParseFile(rest).value == ParseFile(text).value[1..] == [];
    if rest != "" {
      SomeEntries(rest);
    }
    assert rest == "";
    assert text == line + rest;
    assert ParseFile(text).value[0] == ParseLine(line).value;
  }

  lemma OnlyAtEnd(text: string)
    requires text != "" && NextLine(text) == text
    ensures HasNo(text[..|text| - 1], '\n')
  {
    var n := Find(text, '\n');
    assert n + 1 >= |text|;
    var front, upTo := text[..|text| - 1], text[..n];
    forall k | 0 <= k < |front| ensures front[k] != '\n' {
      assert upTo[k] == front[k];
    }
  }

  lemma FieldsOf(body: string, e: Entry)
    requires body == e.source + "\t" + e.target + "\t" + e.fstype + "\t" + e.options && HasNo(body, '\n')
    ensures HasNo(e.source, '\n') && HasNo(e.target, '\n') && HasNo(e.fstype, '\n') && HasNo(e.options, '\n')
  {
    var a := |e.source| + 1;
    var b := a + |e.target| + 1;
    var d := b + |e.fstype| + 1;
    forall k | 0 <= k < |e.source| ensures e.source[k] == body[k] {
    }
    forall k | 0 <= k < |e.target| ensures e.target[k] == body[a + k] {
    }
    forall k | 0 <= k < |e.fstype| ensures e.fstype[k] == body[b + k] {
    }
    forall k | 0 <= k < |e.options| ensures e.options[k] == body[d + k] {
    }
  }

  lemma FieldHasNo(line: string, from: nat, c: char)
    requires from <= |line| && After(line, from, c) <= |line|
    ensures HasNo(line[from..After(line, from, c) - 1], c)
  {
    assert line[from..][..After(line, from, c) - 1 - from] == line[from..After(line, from, c) - 1];
  }

  lemma ParsedHasNoTab(line: string, e: Entry)
    requires ParseLine(line) == Some(e)
    ensures HasNo(e.source, '\t') && HasNo(e.target, '\t') && HasNo(e.fstype, '\t')
  {
    ParseIs(line);
    hide After, HasNo, ParseLine;
    var t := After(line, 0, '\t');
    var f := After(line, t, '\t');
    FieldHasNo(line, 0, '\t');
    FieldHasNo(line, t, '\t');
    FieldHasNo(line, f, '\t');
    assert line[0..t - 1] == line[..t - 1];
  }

  // Which entries are mounted.

  /** mount_root: the first entry for "/", or none; a line that cannot be cut ends it. */
  function ScanRoot(text: string): Option<Option<Entry>>
    decreases |text|
  {
    if text == "" then Some(None)
    else
      var line := NextLine(text);
      var e := ParseLine(line);
      if e.None? then None
      else if e.value.target == "/" then Some(Some(e.value))
      else ScanRoot(text[|line|..])
  }

  /** The loop of main: all other entries. */
  function ScanOthers(text: string): Option<seq<Entry>>
    decreases |text|
  {
    if text == "" then Some([])
    else
      var line := NextLine(text);
      var e := ParseLine(line);
      var rest := ScanOthers(text[|line|..]);
      if e.None? || rest.None? then None
      else Some((if e.value.target == "/" then [] else [e.value]) + rest.value)
  }

  /** The calls that the two loops make; the root is "sandbox:root" if there is no entry for it. */
  datatype Mounted = Mounted(root: Entry, others: seq<Entry>)

  const FALLBACK := Entry(ROOT_NAME, "/", "9p", "trans=virtio,version=9p2000.u")

  function GuestMounts(text: string): Option<Mounted> {
    var root, others := ScanRoot(text), ScanOthers(text);
    if root.None? || others.None? then None
    else Some(Mounted(if root.value.Some? then root.value.value else FALLBACK, others.value))
  }

  /** fgets: the next line of the file, with a zero behind it. */
  method Fgets(buffer: array<char>, text: string) returns (line: string, rest: string)
    requires buffer.Length == LINE_MAX + 1 && text != ""
    modifies buffer
    ensures line == NextLine(text) && rest == text[|line|..]
    ensures |line| < buffer.Length && buffer[..|line|] == line && buffer[|line|] == '\0'
  {
    line := NextLine(text);
    rest := text[|line|..];
    forall k | 0 <= k < |line| {
      buffer[k] := line[k];
    }
    buffer[|line|] := '\0';
  }

  /** One turn of either loop: read a line and cut it, if it can be cut. */
  method ReadEntry(buffer: array<char>, text: string) returns (e: Option<Entry>, rest: string)
    requires buffer.Length == LINE_MAX + 1 && text != "" && HasNo(text, '\0')
    modifies buffer
    ensures e == ParseLine(NextLine(text)) && rest == text[|NextLine(text)|..] && HasNo(rest, '\0')
  {
    var line;
    line, rest := Fgets(buffer, text);
    if ParseLine(line).None? {
      return None, rest;
    }
    var target, fstype, options := CutLine(buffer, line);
    e := Some(EntryIn(buffer[..], target, fstype, options));
  }

  /** The loop of mount_root. */
  method MountRoot(buffer: array<char>, text: string) returns (r: Option<Entry>)
    requires buffer.Length == LINE_MAX + 1 && HasNo(text, '\0')
    modifies buffer
    ensures r == if ScanRoot(text).None? then None
                 else Some(if ScanRoot(text).value.Some? then ScanRoot(text).value.value else FALLBACK)
  {
    hide ParseLine, NextLine;
    var rest := text;
    while rest != ""
      invariant HasNo(rest, '\0') && ScanRoot(rest) == ScanRoot(text)
      decreases |rest|
    {
      var e;
      e, rest := ReadEntry(buffer, rest);
      if e.None? {
        return None;
      }
      if e.value.target == "/" {
        return e;
      }
    }
    return Some(FALLBACK);
  }

  function Prepend(done: seq<Entry>, rest: Option<seq<Entry>>): Option<seq<Entry>> {
    if rest.None? then None else Some(done + rest.value)
  }

  lemma Prepended(done: seq<Entry>, more: seq<Entry>, rest: Option<seq<Entry>>)
    ensures Prepend(done, Prepend(more, rest)) == Prepend(done + more, rest)
    ensures Prepend([], rest) == rest && done + [] == done
  {
    if rest.Some? {
      assert done + (more + rest.value) == done + more + rest.value;
      assert [] + rest.value == rest.value;
    }
  }

  /** The loop of main. */
  method MountOthers(buffer: array<char>, text: string) returns (r: Option<seq<Entry>>)
    requires buffer.Length == LINE_MAX + 1 && HasNo(text, '\0')
    modifies buffer
    ensures r == ScanOthers(text)
  {
    hide ParseLine, NextLine;
    var rest, done := text, [];
    Prepended([], [], ScanOthers(text));
    while rest != ""
      invariant HasNo(rest, '\0')
      invariant ScanOthers(text) == Prepend(done, ScanOthers(rest))
      decreases |rest|
    {
      var e;
      e, rest := ReadEntry(buffer, rest);
      if e.None? {
        return None;
      }
      Prepended(done, if e.value.target == "/" then [] else [e.value], ScanOthers(rest));
      if e.value.target != "/" {
        done := done + [e.value];
      }
    }
    Prepended(done, [], Some([]));
    return Some(done);
  }

  // End to end.

  function Entries(c: Config, n: nat): (es: seq<Entry>)
    requires n <= |c.mounts|
    ensures |es| == n
  {
    if n == 0 then [] else Entries(c, n - 1) + [EntryOf(c, n - 1)]
  }

  function FirstRoot(es: seq<Entry>): Option<Entry> {
    if es == [] then None else if es[0].target == "/" then Some(es[0]) else FirstRoot(es[1..])
  }

  function NotRoot(es: seq<Entry>): seq<Entry> {
    if es == [] then [] else (if es[0].target == "/" then [] else [es[0]]) + NotRoot(es[1..])
  }

  lemma {:induction false} ScanIsParse(text: string)
    requires ParseFile(text).Some?
    ensures ScanRoot(text) == Some(FirstRoot(ParseFile(text).value))
    ensures ScanOthers(text) == Some(NotRoot(ParseFile(text).value))
    decreases |text|
  {
    hide ParseLine, NextLine;
    if text != "" {
      var line := NextLine(text);
      var rest := text[|line|..];
      ScanIsParse(rest);
      var es := ParseFile(text).value;
      assert es[0] == ParseLine(line).value && es[1..] == ParseFile(rest).value;
    }
  }

  lemma {:induction false} CfgBack(c: Config, n: nat, rest: string)
    requires n <= |c.mounts| && (forall i | 0 <= i < n :: Clean(EntryOf(c, i)))
    ensures ParseFile(MountCfg(c, n) + rest) ==
            if ParseFile(rest).None? then None else Some(Entries(c, n) + ParseFile(rest).value)
  {
    hide Clean, Line, EntryOf, ParseFile;
    if n > 0 {
      var e := EntryOf(c, n - 1);
      FileBack(e, rest);
      CfgBack(c, n - 1, Line(e) + rest);
      assert MountCfg(c, n) + rest == MountCfg(c, n - 1) + (Line(e) + rest);
      if ParseFile(rest).Some? {
        assert Entries(c, n) + ParseFile(rest).value == Entries(c, n - 1) + ([e] + ParseFile(rest).value);
      }
    } else {
      assert "" + rest == rest;
      if ParseFile(rest).Some? {
        assert [] + ParseFile(rest).value == ParseFile(rest).value;
      }
    }
  }

  lemma {:induction false} EntriesAt(c: Config, n: nat, i: nat)
    requires i < n <= |c.mounts|
    ensures Entries(c, n)[i] == EntryOf(c, i) && EntryOf(c, i).target == c.mounts[i].target
  {
    if i < n - 1 {
      EntriesAt(c, n - 1, i);
    }
  }

  lemma {:induction false} FirstRootIs(es: seq<Entry>, i: nat)
    requires i < |es| && es[i].target == "/" && (forall k | 0 <= k < i :: es[k].target != "/")
    ensures FirstRoot(es) == Some(es[i])
  {
    if i > 0 {
      FirstRootIs(es[1..], i - 1);
    }
  }

  lemma {:induction false} NoRootIs(es: seq<Entry>)
    requires forall k | 0 <= k < |es| :: es[k].target != "/"
    ensures FirstRoot(es).None? && NotRoot(es) == es
  {
    if es != [] {
      NoRootIs(es[1..]);
      assert es == [es[0]] + es[1..];
    }
  }

  /** The mounts whose target is not "/", in the order of the list. */
  function OtherEntries(c: Config, n: nat): seq<Entry>
    requires n <= |c.mounts|
  {
    if n == 0 then []
    else OtherEntries(c, n - 1) + if c.mounts[n - 1].target == "/" then [] else [EntryOf(c, n - 1)]
  }

  lemma {:induction false} NotRootAppend(a: seq<Entry>, e: Entry)
    ensures NotRoot(a + [e]) == NotRoot(a) + if e.target == "/" then [] else [e]
  {
    if a != [] {
      NotRootAppend(a[1..], e);
      assert (a + [e])[0] == a[0] && (a + [e])[1..] == a[1..] + [e];
    } else {
      assert a + [e] == [e];
    }
  }

  lemma {:induction false} OthersAre(c: Config, n: nat)
    requires n <= |c.mounts|
    ensures NotRoot(Entries(c, n)) == OtherEntries(c, n)
  {
    hide EntryOf;
    if n > 0 {
      OthersAre(c, n - 1);
      NotRootAppend(Entries(c, n - 1), EntryOf(c, n - 1));
      EntriesAt(c, n, n - 1);
    }
  }

  /**
    * From the builder to the guest.  If the lines are clean, init mounts the
    * first mount for "/" as the root, and otherwise "sandbox:root", which is a
    * device of the domain exactly in that case; and it mounts every other mount
    * once, in the order of the list.
    */
  lemma GuestMountsConfig(c: Config, configdir: string)
    requires forall i | 0 <= i < |c.mounts| :: Clean(EntryOf(c, i))
    ensures var g := GuestMounts(MountCfg(c, |c.mounts|));
            && g.Some? && g.value.others == OtherEntries(c, |c.mounts|)
            && (!HasRootMount(c) <==> g.value.root == FALLBACK && HasFilesys(Devices(c, configdir), ROOT_NAME, c.root))
            && (!HasRootMount(c) ==> ServesRoot(Devices(c, configdir), g.value.root, c.root))
            && (forall i | 0 <= i < |c.mounts| && c.mounts[i].target == "/" &&
                           (forall k | 0 <= k < i :: c.mounts[k].target != "/") :: g.value.root == EntryOf(c, i))
  {
    var n := |c.mounts|;
    var es := Entries(c, n);
    var text := MountCfg(c, n);
    CfgBack(c, n, "");
    assert text + "" == text && es + [] == es && ParseFile("") == Some([]);
    ScanIsParse(text);
    OthersAre(c, n);
    forall i | 0 <= i < n ensures es[i] == EntryOf(c, i) && es[i].target == c.mounts[i].target {
      EntriesAt(c, n, i);
    }
    hide Clean, ParseFile, MountCfg, EntryOf, Entries;
    RootIs(c, configdir, es, GuestMounts(text).value.root);
    if !HasRootMount(c) {
      FallbackServesRoot(c, configdir);
    }
  }

  /** The entry mounts, over virtio and as the root, the read-only device that serves this directory of the host. */
  ghost predicate ServesRoot(ds: seq<Device>, e: Entry, root: string) {
    && e.target == "/" && e.fstype == "9p" && e.options == "trans=virtio,version=9p2000.u"
    && exists d :: d in ds && d.Filesys? && NameOf(d) == e.source && d.source == root && d.readonly
  }

  lemma FallbackServesRoot(c: Config, configdir: string)
    requires !HasRootMount(c)
    ensures ServesRoot(Devices(c, configdir), FALLBACK, c.root)
  {
    hide MountDevices, DiskDevices;
    var d := Filesys(c.root, ROOT_NAME, true);
    assert Devices(c, configdir)[0] == d;
  }

  /** What an entry says of a mount of each kind. */
  ghost predicate Describes(ds: seq<Device>, e: Entry, m: Mount) {
    && e.target == m.target
    && match m.kind
       case HostBind(source) =>
         e.fstype == "9p" && e.options == "trans=virtio,version=9p2000.u" && HasFilesys(ds, e.source, source)
       case HostImage(image, format) => e.fstype == "ext4" && e.options == "" && HasDisk(ds, e.source, image, format)
       case GuestBind(path) => e.source == path && e.fstype == "" && e.options == ""
       case Ram(usage) =>
         && e.source == "tmpfs" && e.fstype == "tmpfs"
         && exists size: string ::
              e.options == "size=" + size + "k" && Digits(size) && Value(size) == usage / 1024
  }

  /** The entries that the guest parses describe the mounts, each in its place. */
  lemma EntriesDescribe(c: Config, configdir: string)
    requires forall i | 0 <= i < |c.mounts| :: Clean(EntryOf(c, i))
    ensures var es := ParseFile(MountCfg(c, |c.mounts|));
            && es.Some? && |es.value| == |c.mounts|
            && (forall i | 0 <= i < |c.mounts| :: Describes(Devices(c, configdir), es.value[i], c.mounts[i]))
  {
    var n := |c.mounts|;
    CfgBack(c, n, "");
    assert MountCfg(c, n) + "" == MountCfg(c, n) && Entries(c, n) + [] == Entries(c, n) && ParseFile("") == Some([]);
    hide Clean, ParseFile, MountCfg, EntryOf, Entries, Describes;
    forall i | 0 <= i < n ensures Describes(Devices(c, configdir), Entries(c, n)[i], c.mounts[i]) {
      EntriesAt(c, n, i);
      EntryDescribes(c, configdir, i);
    }
  }

  lemma EntryDescribes(c: Config, configdir: string, i: nat)
    requires i < |c.mounts|
    ensures Describes(Devices(c, configdir), EntryOf(c, i), c.mounts[i])
  {
    LinesNameDevices(c, configdir);
    hide Devices, BindName, VirtioName, Binds, Images, Decimal, HasDisk, HasFilesys;
    if c.mounts[i].kind.Ram? {
      DecimalValue(c.mounts[i].kind.usage / 1024);
    }
  }

  lemma {:induction false} RootIs(c: Config, configdir: string, es: seq<Entry>, root: Entry)
    requires |es| == |c.mounts|
    requires forall i | 0 <= i < |es| :: es[i] == EntryOf(c, i) && es[i].target == c.mounts[i].target
    requires root == if FirstRoot(es).Some? then FirstRoot(es).value else FALLBACK
    ensures !HasRootMount(c) <==> root == FALLBACK && HasFilesys(Devices(c, configdir), ROOT_NAME, c.root)
    ensures forall i | 0 <= i < |c.mounts| && c.mounts[i].target == "/" &&
                       (forall k | 0 <= k < i :: c.mounts[k].target != "/") :: root == EntryOf(c, i)
  {
    hide EntryOf, FALLBACK;
    if HasRootMount(c) {
      NoRootDevice(c, configdir);
      forall i | 0 <= i < |c.mounts| && c.mounts[i].target == "/" &&
                 (forall k | 0 <= k < i :: c.mounts[k].target != "/")
        ensures root == EntryOf(c, i)
      {
        FirstRootIs(es, i);
      }
    } else {
      NoRootIs(es);
      RootDevice(c, configdir);
    }
  }

  lemma RootDevice(c: Config, configdir: string)
    requires !HasRootMount(c)
    ensures HasFilesys(Devices(c, configdir), ROOT_NAME, c.root)
  {
    hide MountDevices, DiskDevices;
    var d := Filesys(c.root, ROOT_NAME, true);
    assert Devices(c, configdir)[0] == d;
  }

  /** With a mount for "/" the builder adds no such device. */
  lemma NoRootDevice(c: Config, configdir: string)
    requires HasRootMount(c)
    ensures !HasFilesys(Devices(c, configdir), ROOT_NAME, c.root)
  {
    DiskDevicesCounted(c, |c.disks|);
    MountDevicesCounted(c, |c.mounts|);
    var disks, mounts := DiskDevices(c, |c.disks|), MountDevices(c, |c.mounts|);
    hide MountDevices, DiskDevices, BindName, VirtioName, Distinct, Binds, Images;
    assert c.mounts[..|c.mounts|] == c.mounts;
    var ds := Devices(c, configdir);
    forall a | 0 <= a < |ds| ensures ds[a].Filesys? ==> ds[a].target != ROOT_NAME {
      if a == 0 {
        KindsDiffer(0, 0);
      } else if a <= |disks| {
        assert ds[a] == disks[a - 1];
      } else {
        assert ds[a] == mounts[a - 1 - |disks|];
        if ds[a].Filesys? {
          var k: nat :| ds[a].target == BindName(k);
          KindsDiffer(k, 0);
        }
      }
    }
  }
}
