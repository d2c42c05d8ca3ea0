/**
 The text of a fast-import stream: decimal numbers, lines, length-prefixed data, C-quoted paths and
 the three commands of a candidate record, each with a reader that takes back exactly what was
 written, whatever follows it.

 A character stands for one byte of the stream.
 */
module RecordText {
  import opened Outcomes
  import opened ByteOrder

  type Text = seq<char>

  // ----- Decimal numbers

  predicate IsDigit(c: char) {
    '0' <= c <= '9'
  }

  function Digit(n: nat): char
    requires n < 10
  {
    ('0' as int + n) as char
  }

  function Decimal(n: nat): Text {
    if n < 10 then [Digit(n)] else Decimal(n / 10) + [Digit(n % 10)]
  }

  /** Decimal, with at least three digits. */
  function Decimal3(n: nat): Text {
    if n < 10 then "00" + Decimal(n) else if n < 100 then "0" + Decimal(n) else Decimal(n)
  }

  function ReadDecimal(s: Text): Option<nat> {
    if s == [] || !IsDigit(s[|s| - 1]) then None
    else
      var unit := s[|s| - 1] as int - '0' as int;
      if |s| == 1 then Some(unit)
      else
        var high :- ReadDecimal(s[..|s| - 1]);
        Some(10 * high + unit)
  }

  lemma {:induction false} DecimalReads(n: nat)
    ensures ReadDecimal(Decimal(n)) == Some(n)
    ensures forall i :: 0 <= i < |Decimal(n)| ==> IsDigit(Decimal(n)[i])
    ensures Decimal(n) != []
  {
    if n >= 10 {
      DecimalReads(n / 10);
      assert Decimal(n)[..|Decimal(n)| - 1] == Decimal(n / 10);
    }
  }

  lemma DecimalWidth(n: nat)
    ensures n < 10 ==> |Decimal(n)| == 1
    ensures 10 <= n < 100 ==> |Decimal(n)| == 2
    ensures 100 <= n < 1000 ==> |Decimal(n)| == 3
    ensures 100 <= n ==> |Decimal(n)| >= 3
  {
    if 10 <= n {
      assert |Decimal(n)| == |Decimal(n / 10)| + 1;
      if 100 <= n {
        assert |Decimal(n / 10)| == |Decimal(n / 100)| + 1;
      }
    }
  }

  lemma Decimal3Reads(n: nat)
    ensures ReadDecimal(Decimal3(n)) == Some(n)
    ensures forall i :: 0 <= i < |Decimal3(n)| ==> IsDigit(Decimal3(n)[i])
    ensures Decimal3(n) != []
    ensures |Decimal3(n)| >= 3 && (n < 1000 ==> |Decimal3(n)| == 3)
  {
    DecimalReads(n);
    DecimalWidth(n);
    if n < 10 {
      var d := Decimal3(n);
      assert d[..2] == "00" && d[..2][..1] == "0";
      assert ReadDecimal("0") == Some(0);
      assert ReadDecimal("00") == Some(0);
    } else if n < 100 {
      var d := Decimal3(n);
      assert d == ['0', Digit(n / 10), Digit(n % 10)];
      assert d[..2] == ['0', Digit(n / 10)] && d[..2][..1] == "0";
      assert ReadDecimal("0") == Some(0);
    }
  }

  // ----- Lines and fields

  /** The text before the first delimiter, and the text after it. */
  function Split(s: Text, delimiter: char): (r: Option<(Text, Text)>)
    ensures r.Some? ==> |r.value.1| < |s|
  {
    if s == [] then None
    else if s[0] == delimiter then Some(([], s[1..]))
    else
      var more :- Split(s[1..], delimiter);
      Some(([s[0]] + more.0, more.1))
  }

  lemma {:induction false} SplitFinds(s: Text, delimiter: char, rest: Text)
    requires delimiter !in s
    ensures Split(s + [delimiter] + rest, delimiter) == Some((s, rest))
  {
    var whole := s + [delimiter] + rest;
    if s == [] {
      assert whole[1..] == rest;
    } else {
      SplitFinds(s[1..], delimiter, rest);
      assert whole[1..] == s[1..] + [delimiter] + rest;
      assert [s[0]] + s[1..] == s;
    }
  }

  function Line(line: Text, rest: Text): Text {
    line + ['\n'] + rest
  }

  function NextLine(s: Text): (r: Option<(Text, Text)>)
    ensures r.Some? ==> |r.value.1| < |s|
  {
    Split(s, '\n')
  }

  lemma LineReads(line: Text, rest: Text)
    requires '\n' !in line
    ensures NextLine(Line(line, rest)) == Some((line, rest))
  {
    SplitFinds(line, '\n', rest);
  }

  function Strip(s: Text, prefix: Text): Option<Text> {
    if prefix <= s then Some(s[|prefix|..]) else None
  }

  lemma StripReads(prefix: Text, s: Text)
    ensures Strip(prefix + s, prefix) == Some(s)
  {
  }

  function StripEnd(s: Text, suffix: Text): Option<Text> {
    if |suffix| <= |s| && s[|s| - |suffix|..] == suffix then Some(s[..|s| - |suffix|]) else None
  }

  /** A number after a fixed tag, and nothing else on the line. */
  function Numbered(tag: Text, n: nat): Text {
    tag + Decimal(n)
  }

  function ReadNumbered(line: Text, tag: Text): Option<nat> {
    var digits :- Strip(line, tag);
    ReadDecimal(digits)
  }

  lemma NumberedReads(tag: Text, n: nat)
    requires '\n' !in tag
    ensures ReadNumbered(Numbered(tag, n), tag) == Some(n)
    ensures '\n' !in Numbered(tag, n)
  {
    StripReads(tag, Decimal(n));
    DecimalReads(n);
  }

  // ----- Length-prefixed data

  function Data(payload: Text, rest: Text): Text {
    Line(Numbered("data ", |payload|), Line(payload, rest))
  }

  function ReadData(s: Text): (r: Option<(Text, Text)>)
    ensures r.Some? ==> |r.value.1| < |s|
  {
    var line :- NextLine(s);
    var size :- ReadNumbered(line.0, "data ");
    var rest := line.1;
    if |rest| <= size || rest[size] != '\n' then None
    else Some((rest[..size], rest[size + 1..]))
  }

  /** No payload needs escaping: the count decides where it ends. */
  lemma DataReads(payload: Text, rest: Text)
    ensures ReadData(Data(payload, rest)) == Some((payload, rest))
  {
    hide NextLine, ReadNumbered, Numbered;
    NumberedReads("data ", |payload|);
    LineReads(Numbered("data ", |payload|), Line(payload, rest));
    var after := Line(payload, rest);
    assert after[..|payload|] == payload && after[|payload| + 1..] == rest;
  }

  // ----- Quoted paths

  function QuoteByte(b: Byte): Text {
    match b
    case '"' => "\\\""
    case '\\' => "\\\\"
    case '\n' => "\\n"
    case '\r' => "\\r"
    case '\t' => "\\t"
    case _ =>
      if 0x20 <= b as int <= 0x7e then [b]
      else ['\\', Digit(b as int / 64), Digit(b as int / 8 % 8), Digit(b as int % 8)]
  }

  function QuoteBytes(path: seq<Byte>): Text {
    if path == [] then [] else QuoteByte(path[0]) + QuoteBytes(path[1..])
  }

  function Quote(path: seq<Byte>): Text {
    ['"'] + QuoteBytes(path) + ['"']
  }

  predicate IsOctal(c: char) {
    '0' <= c <= '7'
  }

  function Octal(c: char): nat
    requires IsOctal(c)
  {
    c as int - '0' as int
  }

  /** One unquoted byte and the text after it, as git reads a C-quoted path. */
  function UnquoteByte(s: Text): (r: Option<(char, Text)>)
    ensures r.Some? ==> |r.value.1| < |s|
  {
    if s == [] || s[0] == '"' then None
    else if s[0] != '\\' then Some((s[0], s[1..]))
    else if |s| < 2 then None
    else match s[1]
      case '"' => Some(('"', s[2..]))
      case '\\' => Some(('\\', s[2..]))
      case 'n' => Some(('\n', s[2..]))
      case 'r' => Some(('\r', s[2..]))
      case 't' => Some(('\t', s[2..]))
      case _ =>
        if |s| < 4 || !IsOctal(s[1]) || !IsOctal(s[2]) || !IsOctal(s[3]) then None
        else Some(((64 * Octal(s[1]) + 8 * Octal(s[2]) + Octal(s[3])) as char, s[4..]))
  }

  function UnquoteBytes(s: Text): Option<Text> {
    if s == ['"'] then Some([])
    else
      var b :- UnquoteByte(s);
      var rest :- UnquoteBytes(b.1);
      Some([b.0] + rest)
  }

  function Unquote(s: Text): Option<Text> {
    if s == [] || s[0] != '"' then None else UnquoteBytes(s[1..])
  }

  lemma UnquoteByteInverts(b: Byte, rest: Text)
    ensures UnquoteByte(QuoteByte(b) + rest) == Some((b, rest))
    ensures '\n' !in QuoteByte(b)
    ensures QuoteByte(b) != [] && QuoteByte(b)[0] != '"'
  {
    var q := QuoteByte(b) + rest;
    var n := b as int;
    assert n == 64 * (n / 64) + 8 * (n / 8 % 8) + n % 8;
    assert q[|QuoteByte(b)|..] == rest;
  }

  lemma {:induction false} UnquoteBytesInverts(path: seq<Byte>)
    ensures UnquoteBytes(QuoteBytes(path) + ['"']) == Some(path)
    ensures '\n' !in QuoteBytes(path)
  {
    hide UnquoteByte, QuoteByte;
    if path != [] {
      var tail := QuoteBytes(path[1..]) + ['"'];
      UnquoteByteInverts(path[0], tail);
      UnquoteBytesInverts(path[1..]);
      assert QuoteBytes(path) + ['"'] == QuoteByte(path[0]) + tail;
      assert (QuoteBytes(path) + ['"'])[0] == QuoteByte(path[0])[0];
      assert [path[0]] + path[1..] == path;
    }
  }

  /** Unquoting inverts quoting for every path, and no quoted path can end its line early. */
  lemma UnquoteInverts(path: seq<Byte>)
    ensures Unquote(Quote(path)) == Some(path)
    ensures '\n' !in Quote(path)
  {
    UnquoteBytesInverts(path);
    assert Quote(path)[1..] == QuoteBytes(path) + ['"'];
  }

  lemma {:induction false} QuoteBytesAppend(path: seq<Byte>, b: Byte)
    ensures QuoteBytes(path + [b]) == QuoteBytes(path) + QuoteByte(b)
  {
    hide QuoteByte;
    if path == [] {
      assert ([b])[1..] == [];
      assert QuoteBytes([b]) == QuoteByte(b) + QuoteBytes([]);
    } else {
      QuoteBytesAppend(path[1..], b);
      assert (path + [b])[1..] == path[1..] + [b];
    }
  }

  method QuotePath(path: seq<Byte>) returns (quoted: Text)
    ensures quoted == Quote(path)
    ensures Unquote(quoted) == Some(path) && '\n' !in quoted
  {
    hide UnquoteBytes, Unquote, QuoteByte;
    quoted := ['"'];
    for i := 0 to |path|
      invariant quoted == ['"'] + QuoteBytes(path[..i])
    {
      QuoteBytesAppend(path[..i], path[i]);
      assert path[..i + 1] == path[..i] + [path[i]];
      quoted := quoted + QuoteByte(path[i]);
    }
    assert path[..|path|] == path;
    quoted := quoted + ['"'];
    UnquoteInverts(path);
  }

  // ----- Commands

  const AUTHOR: Text := "AlloyPort candidate record"

  const ADDRESS: Text := "<record@alloyport.invalid>"

  const IDENTITY: Text := AUTHOR + " " + ADDRESS

  const RECORD_BRANCH: Text := "refs/heads/main"

  datatype Change = Change(mark: nat, path: seq<char>)

  datatype Command =
    | Blob(mark: nat, data: Text)
    | Commit(reference: Text, mark: nat, when: nat, message: Text, parent: Option<nat>, changes: seq<Change>)
    | Reset(mark: nat)

  predicate IsPath(path: seq<char>) {
    forall i :: 0 <= i < |path| ==> path[i] as int < 256
  }

  /** What can be written: a ref on one line, and paths made of bytes. */
  predicate Writable(c: Command) {
    c.Commit? ==>
      && '\n' !in c.reference
      && forall i :: 0 <= i < |c.changes| ==> IsPath(c.changes[i].path)
  }

  function ShowChange(c: Change): Text
    requires IsPath(c.path)
  {
    Numbered("M 100644 :", c.mark) + [' '] + Quote(c.path)
  }

  function ShowChanges(changes: seq<Change>, rest: Text): Text
    requires forall i :: 0 <= i < |changes| ==> IsPath(changes[i].path)
  {
    if changes == [] then rest else Line(ShowChange(changes[0]), ShowChanges(changes[1..], rest))
  }

  function Signature(role: Text, when: nat): Text {
    Numbered(role + IDENTITY + [' '], when) + " +0000"
  }

  function ShowParent(parent: Option<nat>, rest: Text): Text {
    if parent.None? then rest else Line(Numbered("from :", parent.value), rest)
  }

  function ShowBody(c: Command, rest: Text): Text
    requires c.Commit? && Writable(c)
  {
    ShowParent(c.parent, Line("deleteall", ShowChanges(c.changes, Line("", rest))))
  }

  /** The text of a command, followed by `rest`. */
  function Show(c: Command, rest: Text): Text
    requires Writable(c)
  {
    match c
    case Blob(mark, data) => Line("blob", Line(Numbered("mark :", mark), Data(data, rest)))
    case Commit(reference, mark, when, message, _, _) =>
      Line("commit " + reference,
        Line(Numbered("mark :", mark),
          Line(Signature("author ", when),
            Line(Signature("committer ", when),
              Data(message, ShowBody(c, rest))))))
    case Reset(mark) =>
      Line("reset " + RECORD_BRANCH, Line(Numbered("from :", mark), Line("", rest)))
  }

  // ----- Reading commands

  function ReadNumberedLine(s: Text, tag: Text): (r: Option<(nat, Text)>)
    ensures r.Some? ==> |r.value.1| < |s|
  {
    var line :- NextLine(s);
    var n :- ReadNumbered(line.0, tag);
    Some((n, line.1))
  }

  lemma NumberedLineReads(tag: Text, n: nat, rest: Text)
    requires '\n' !in tag
    ensures ReadNumberedLine(Line(Numbered(tag, n), rest), tag) == Some((n, rest))
  {
    hide NextLine, ReadNumbered, Numbered, Line;
    NumberedReads(tag, n);
    LineReads(Numbered(tag, n), rest);
  }

  function ReadSignature(s: Text, role: Text): (r: Option<(nat, Text)>)
    ensures r.Some? ==> |r.value.1| < |s|
  {
    var line :- NextLine(s);
    var stamp :- StripEnd(line.0, " +0000");
    var n :- ReadNumbered(stamp, role + IDENTITY + [' ']);
    Some((n, line.1))
  }

  lemma IdentityIsOneLine()
    ensures '\n' !in IDENTITY
  {
  }

  lemma SignatureReads(role: Text, when: nat, rest: Text)
    requires '\n' !in role
    ensures ReadSignature(Line(Signature(role, when), rest), role) == Some((when, rest))
  {
    hide NextLine, ReadNumbered, Numbered, Line, IDENTITY;
    IdentityIsOneLine();
    var tag := role + IDENTITY + [' '];
    NumberedReads(tag, when);
    LineReads(Signature(role, when), rest);
    var line := Signature(role, when);
    assert line[|line| - 6..] == " +0000" && line[..|line| - 6] == Numbered(tag, when);
  }

  function ReadChange(line: Text): Option<Change> {
    var fields :- Strip(line, "M 100644 :");
    var parts :- Split(fields, ' ');
    var mark :- ReadDecimal(parts.0);
    var path :- Unquote(parts.1);
    Some(Change(mark, path))
  }

  lemma ChangeReads(c: Change)
    requires IsPath(c.path)
    ensures ReadChange(ShowChange(c)) == Some(c)
    ensures '\n' !in ShowChange(c) && ShowChange(c) != []
  {
    hide Split, ReadDecimal, Unquote, Quote, Decimal;
    var digits, quoted := Decimal(c.mark), Quote(c.path);
    assert ShowChange(c) == "M 100644 :" + (digits + [' '] + quoted);
    StripReads("M 100644 :", digits + [' '] + quoted);
    DecimalReads(c.mark);
    SplitFinds(digits, ' ', quoted);
    UnquoteInverts(c.path);
  }

  function ReadChanges(s: Text): (r: Option<(seq<Change>, Text)>)
    ensures r.Some? ==> |r.value.1| < |s|
    decreases |s|
  {
    var line :- NextLine(s);
    if line.0 == "" then Some(([], line.1))
    else
      var change :- ReadChange(line.0);
      var more :- ReadChanges(line.1);
      Some(([change] + more.0, more.1))
  }

  lemma {:induction false} ChangesRead(changes: seq<Change>, rest: Text)
    requires forall i :: 0 <= i < |changes| ==> IsPath(changes[i].path)
    ensures ReadChanges(ShowChanges(changes, Line("", rest))) == Some((changes, rest))
    decreases |changes|
  {
    hide NextLine, Line, ReadChange, ShowChange;
    if changes == [] {
      LineReads("", rest);
    } else {
      var tail := ShowChanges(changes[1..], Line("", rest));
      ChangeReads(changes[0]);
      LineReads(ShowChange(changes[0]), tail);
      ChangesRead(changes[1..], rest);
      assert [changes[0]] + changes[1..] == changes;
    }
  }

  function ReadParent(s: Text): (r: Option<(Option<nat>, Text)>)
    ensures r.Some? ==> |r.value.1| <= |s|
  {
    if !("from :" <= s) then Some((None, s))
    else
      var n :- ReadNumberedLine(s, "from :");
      Some((Some(n.0), n.1))
  }

  function ReadBody(s: Text): (r: Option<(Option<nat>, seq<Change>, Text)>)
    ensures r.Some? ==> |r.value.2| < |s|
  {
    var parent :- ReadParent(s);
    var line :- NextLine(parent.1);
    if line.0 != "deleteall" then None
    else
      var changes :- ReadChanges(line.1);
      Some((parent.0, changes.0, changes.1))
  }

  lemma BodyReads(c: Command, rest: Text)
    requires c.Commit? && Writable(c)
    ensures ReadBody(ShowBody(c, rest)) == Some((c.parent, c.changes, rest))
  {
    hide NextLine, ReadNumberedLine, ReadChanges, ShowChanges;
    var changes := ShowChanges(c.changes, Line("", rest));
    ChangesRead(c.changes, rest);
    LineReads("deleteall", changes);
    var after := Line("deleteall", changes);
    if c.parent.None? {
      assert after[0] == 'd';
    } else {
      var n := c.parent.value;
      NumberedLineReads("from :", n, after);
      assert ShowBody(c, rest) == "from :" + (Decimal(n) + ['\n'] + after);
    }
  }

  function ReadBlob(s: Text): (r: Option<(Command, Text)>)
    ensures r.Some? ==> |r.value.1| < |s|
  {
    var mark :- ReadNumberedLine(s, "mark :");
    var data :- ReadData(mark.1);
    Some((Blob(mark.0, data.0), data.1))
  }

  /** Both signatures must carry the same date, as the record writes them. */
  function ReadCommit(reference: Text, s: Text): (r: Option<(Command, Text)>)
    ensures r.Some? ==> |r.value.1| < |s|
  {
    var mark :- ReadNumberedLine(s, "mark :");
    var author :- ReadSignature(mark.1, "author ");
    var committer :- ReadSignature(author.1, "committer ");
    if committer.0 != author.0 then None
    else
      var message :- ReadData(committer.1);
      var body :- ReadBody(message.1);
      Some((Commit(reference, mark.0, author.0, message.0, body.0, body.1), body.2))
  }

  function ReadReset(s: Text): (r: Option<(Command, Text)>)
    ensures r.Some? ==> |r.value.1| < |s|
  {
    var mark :- ReadNumberedLine(s, "from :");
    var line :- NextLine(mark.1);
    if line.0 != "" then None else Some((Reset(mark.0), line.1))
  }

  function ReadCommand(s: Text): (r: Option<(Command, Text)>)
    ensures r.Some? ==> |r.value.1| < |s|
  {
    var line :- NextLine(s);
    if line.0 == "blob" then ReadBlob(line.1)
    else if line.0 == "reset " + RECORD_BRANCH then ReadReset(line.1)
    else
      var reference :- Strip(line.0, "commit ");
      ReadCommit(reference, line.1)
  }

  lemma CommitReads(c: Command, rest: Text)
    requires c.Commit? && Writable(c)
    ensures ReadCommand(Show(c, rest)) == Some((c, rest))
  {
    hide NextLine, Line, Numbered, Signature, Data, ReadData, ReadBody, ShowBody, ReadNumberedLine, ReadSignature;
    var body := ShowBody(c, rest);
    var message := Data(c.message, body);
    var committer := Line(Signature("committer ", c.when), message);
    var author := Line(Signature("author ", c.when), committer);
    var mark := Line(Numbered("mark :", c.mark), author);
    BodyReads(c, rest);
    DataReads(c.message, body);
    SignatureReads("committer ", c.when, message);
    SignatureReads("author ", c.when, committer);
    NumberedLineReads("mark :", c.mark, author);
    var head := "commit " + c.reference;
    LineReads(head, mark);
    StripReads("commit ", c.reference);
    assert head[0] == 'c';
  }

  lemma OtherCommandReads(c: Command, rest: Text)
    requires !c.Commit?
    ensures ReadCommand(Show(c, rest)) == Some((c, rest))
  {
    hide NextLine, Line, Numbered, Data, ReadData, ReadNumberedLine;
    match c
    case Blob(mark, data) =>
      DataReads(data, rest);
      NumberedLineReads("mark :", mark, Data(data, rest));
      LineReads("blob", Line(Numbered("mark :", mark), Data(data, rest)));
    case Reset(mark) =>
      LineReads("", rest);
      NumberedLineReads("from :", mark, Line("", rest));
      LineReads("reset " + RECORD_BRANCH, Line(Numbered("from :", mark), Line("", rest)));
  }

  /** Every writable command is read back, whatever follows it. */
  lemma CommandReads(c: Command, rest: Text)
    requires Writable(c)
    ensures ReadCommand(Show(c, rest)) == Some((c, rest))
  {
    hide ReadCommand, Show;
    if c.Commit? {
      CommitReads(c, rest);
    } else {
      OtherCommandReads(c, rest);
    }
  }

  predicate Printable(c: char) {
    0x20 <= c as int <= 0x7e
  }

  /** A printable byte stands for itself, quote and backslash excepted, and no other kind is written. */
  lemma QuotesPrintably(b: Byte)
    ensures forall i :: 0 <= i < |QuoteByte(b)| ==> Printable(QuoteByte(b)[i])
    ensures QuoteByte(b) == [b] <==> Printable(b) && b != '"' && b != '\\'
  {
  }
}
