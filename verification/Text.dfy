/** Space-separated text: splitting, line files and decimal numbers. */
module Text {

  /** `v` with `t` added to its last piece. */
  function Extend(v: seq<string>, t: string): (w: seq<string>)
    requires |v| >= 1
    ensures |w| == |v|
  {
    v[..|v| - 1] + [v[|v| - 1] + t]
  }

  /** `s` cut at every `d`; empty pieces are kept. */
  function Split(s: string, d: char): (v: seq<string>)
    ensures |v| >= 1
  {
    if s == "" then [""]
    else
      var v, c := Split(s[..|s| - 1], d), s[|s| - 1];
      if c == d then v + [""] else Extend(v, [c])
  }

  function Join(v: seq<string>, d: char): string {
    if v == [] then "" else if |v| == 1 then v[0] else Join(v[..|v| - 1], d) + [d] + v[|v| - 1]
  }

  ghost predicate Free(v: seq<string>, d: char) {
    forall i :: 0 <= i < |v| ==> d !in v[i]
  }

  /** The splitting loop, with the piece under construction in `temp`. */
  method SplitText(data: string, delim: char) returns (v: seq<string>)
    ensures v == Split(data, delim)
  {
    v := [];
    var temp := "";
    for i := 0 to |data|
      invariant v + [temp] == Split(data[..i], delim)
    {
      assert data[..i + 1][..i] == data[..i];
      if data[i] == delim {
        v := v + [temp];
        temp := "";
      } else {
        temp := temp + [data[i]];
      }
    }
    assert data[..|data|] == data;
    v := v + [temp];
  }

  lemma ExtendTwice(v: seq<string>, t: string, u: string)
    requires |v| >= 1
    ensures Extend(Extend(v, t), u) == Extend(v, t + u)
  {
    var w := Extend(v, t);
    assert w[..|w| - 1] == v[..|v| - 1];
    assert v[|v| - 1] + t + u == v[|v| - 1] + (t + u);
  }

  lemma ExtendFresh(v: seq<string>, t: string)
    ensures Extend(v + [""], t) == v + [t]
  {
    assert "" + t == t;
  }

  lemma {:induction false} SplitSnoc(s: string, c: char, d: char)
    ensures Split(s + [c], d) == if c == d then Split(s, d) + [""] else Extend(Split(s, d), [c])
  {
  }

  /** Text without a separator only extends the last piece. */
  lemma {:induction false} SplitExtend(s: string, t: string, d: char)
    requires d !in t
    ensures Split(s + t, d) == Extend(Split(s, d), t)
  {
    var v := Split(s, d);
    if t == "" {
      assert s + t == s && v[|v| - 1] + t == v[|v| - 1];
    } else {
      var init, c := t[..|t| - 1], t[|t| - 1];
      SplitExtend(s, init, d);
      SplitSnoc(s + init, c, d);
      ExtendTwice(v, init, [c]);
      assert t == init + [c];
      assert s + t == s + init + [c];
    }
  }

  lemma {:induction false} JoinExtend(v: seq<string>, t: string, d: char)
    requires |v| >= 1
    ensures Join(Extend(v, t), d) == Join(v, d) + t
  {
    if |v| > 1 {
      var init, last := v[..|v| - 1], v[|v| - 1];
      assert Extend(v, t)[..|v| - 1] == init;
      assert Join(init, d) + [d] + (last + t) == Join(init, d) + [d] + last + t;
    }
  }

  lemma {:induction false} JoinSnoc(v: seq<string>, t: string, d: char)
    requires |v| >= 1
    ensures Join(v + [t], d) == Join(v, d) + [d] + t
  {
  }

  lemma {:induction false} SplitIsFree(s: string, d: char)
    ensures Free(Split(s, d), d)
  {
    if s != "" {
      SplitIsFree(s[..|s| - 1], d);
    }
  }

  /** Splitting loses nothing: joining the pieces gives the text back, and no piece holds a separator. */
  lemma {:induction false} JoinUndoesSplit(s: string, d: char)
    ensures Join(Split(s, d), d) == s
    ensures Free(Split(s, d), d)
  {
    SplitIsFree(s, d);
    if s != "" {
      var init, c := s[..|s| - 1], s[|s| - 1];
      JoinUndoesSplit(init, d);
      assert s == init + [c];
      SplitSnoc(init, c, d);
      if c == d {
        JoinSnoc(Split(init, d), "", d);
      } else {
        JoinExtend(Split(init, d), [c], d);
      }
    }
  }

  /** Pieces without separators survive joining and splitting. */
  lemma {:induction false} SplitUndoesJoin(v: seq<string>, d: char)
    requires |v| >= 1 && Free(v, d)
    ensures Split(Join(v, d), d) == v
  {
    var init, last := v[..|v| - 1], v[|v| - 1];
    if |v| == 1 {
      SplitExtend("", last, d);
      assert "" + last == last;
      ExtendFresh([], last);
    } else {
      SplitUndoesJoin(init, d);
      var s := Join(init, d);
      SplitSnoc(s, d, d);
      SplitExtend(s + [d], last, d);
      ExtendFresh(init, last);
      assert v == init + [last];
    }
  }

  /** What `>>` extracts from a line whose only white space is the separator: the non-empty pieces. */
  function Words(v: seq<string>): seq<string> {
    if v == [] then []
    else Words(v[..|v| - 1]) + if v[|v| - 1] == "" then [] else [v[|v| - 1]]
  }

  /** `>>` reads back the fields of a line exactly when none of them is empty. */
  lemma {:induction false} WordsIffNonEmpty(v: seq<string>)
    ensures |Words(v)| <= |v|
    ensures Words(v) == v <==> forall i :: 0 <= i < |v| ==> v[i] != ""
  {
    if v != [] {
      var init, last := v[..|v| - 1], v[|v| - 1];
      WordsIffNonEmpty(init);
      if last != "" {
        assert v == init + [last];
        if Words(v) == v {
          assert Words(v)[..|v| - 1] == Words(init);
        }
      }
    }
  }

  /** A command's argument or a field, as `>>` extracts it: it holds no white space. */
  ghost predicate Token(w: string) {
    ' ' !in w && '\n' !in w && '\t' !in w && '\r' !in w && '\U{0B}' !in w && '\U{0C}' !in w
  }

  /******* Files of lines *******/

  type Record = seq<string>

  /** Records a handler can write: some fields each, without spaces or newlines. */
  ghost predicate Clean(records: seq<Record>) {
    forall i :: 0 <= i < |records| ==> |records[i]| >= 1 && Free(records[i], ' ') && Free(records[i], '\n')
  }

  /** The bytes of a file holding one line per record. */
  function Render(records: seq<Record>): string {
    if records == [] then ""
    else Render(records[..|records| - 1]) + Join(records[|records| - 1], ' ') + "\n"
  }

  function JoinAll(records: seq<Record>): seq<string> {
    seq(|records|, i requires 0 <= i < |records| => Join(records[i], ' '))
  }

  /** The lines `getline` yields: pieces between newlines, without an empty last one. */
  function Lines(content: string): seq<string> {
    var v := Split(content, '\n');
    if v[|v| - 1] == "" then v[..|v| - 1] else v
  }

  function Parse(content: string): seq<Record> {
    var lines := Lines(content);
    seq(|lines|, i requires 0 <= i < |lines| => Split(lines[i], ' '))
  }

  lemma {:induction false} JoinHasNoNewline(r: Record)
    requires Free(r, '\n')
    ensures '\n' !in Join(r, ' ')
  {
    if |r| > 1 {
      JoinHasNoNewline(r[..|r| - 1]);
    }
  }

  lemma {:induction false} LineAdded(content: string, line: string, lines: seq<string>)
    requires Split(content, '\n') == lines + [""] && '\n' !in line
    ensures Split(content + line + "\n", '\n') == lines + [line] + [""]
  {
    SplitExtend(content, line, '\n');
    ExtendFresh(lines, line);
    SplitSnoc(content + line, '\n', '\n');
  }

  lemma {:induction false} LinesOfRender(records: seq<Record>)
    requires Clean(records)
    ensures Split(Render(records), '\n') == JoinAll(records) + [""]
  {
    if records == [] {
      assert JoinAll(records) == [];
    } else {
      var init, last := records[..|records| - 1], records[|records| - 1];
      LinesOfRender(init);
      JoinHasNoNewline(last);
      LineAdded(Render(init), Join(last, ' '), JoinAll(init));
      assert JoinAll(records) == JoinAll(init) + [Join(last, ' ')];
    }
  }

  /** Written records are read back exactly. */
  lemma {:induction false} ParseUndoesRender(records: seq<Record>)
    requires Clean(records)
    ensures Lines(Render(records)) == JoinAll(records)
    ensures Parse(Render(records)) == records
  {
    LinesOfRender(records);
    assert Lines(Render(records)) == JoinAll(records);
    forall i | 0 <= i < |records| ensures Split(JoinAll(records)[i], ' ') == records[i] {
      SplitUndoesJoin(records[i], ' ');
    }
  }

  /******* Decimal numbers *******/

  function Digit(n: nat): char
    requires n < 10
  {
    '0' + n as char
  }

  predicate IsDigit(c: char) {
    '0' <= c <= '9'
  }

  function ToString(n: nat): (s: string)
    ensures |s| >= 1 && forall i :: 0 <= i < |s| ==> IsDigit(s[i])
  {
    if n < 10 then [Digit(n)] else ToString(n / 10) + [Digit(n % 10)]
  }

  /** The value of the digits that start `s`, continuing from `acc`. */
  function Digits(s: string, acc: nat): nat {
    if s == "" || !IsDigit(s[0]) then acc else Digits(s[1..], acc * 10 + (s[0] - '0') as nat)
  }

  function Atoi(s: string): int {
    if s == "" then 0 else if s[0] == '-' then 0 - Digits(s[1..], 0) else Digits(s, 0)
  }

  lemma {:induction false} DigitsSnoc(s: string, d: nat, acc: nat)
    requires d < 10 && forall i :: 0 <= i < |s| ==> IsDigit(s[i])
    ensures Digits(s + [Digit(d)], acc) == Digits(s, acc) * 10 + d
  {
    var t := s + [Digit(d)];
    if s == "" {
      assert t[1..] == "";
    } else {
      assert t[1..] == s[1..] + [Digit(d)];
      DigitsSnoc(s[1..], d, acc * 10 + (s[0] - '0') as nat);
    }
  }

  lemma {:induction false} DigitsUndoToString(n: nat)
    ensures Digits(ToString(n), 0) == n
  {
    if n >= 10 {
      DigitsUndoToString(n / 10);
      DigitsSnoc(ToString(n / 10), n % 10, 0);
    } else {
      DigitsSnoc("", n, 0);
      assert ToString(n) == "" + [Digit(n)];
    }
  }

  lemma {:induction false} AtoiUndoesToString(n: nat)
    ensures Atoi(ToString(n)) == n
  {
    DigitsUndoToString(n);
    assert IsDigit(ToString(n)[0]);
  }
}
