/**
 * The insert-table command: how it reads its `rows` / `columns` options, where it puts the new
 * table relative to the selection, when it is enabled, and where it leaves the selection.
 *
 * The document is a tree of elements whose text is stored one character per node, so that a
 * child index is exactly an offset of the document model. A position names its parent element by
 * the path of child indices from the root and an offset inside that parent.
 */
module InsertTable {

  datatype Option<T> = None | Some(value: T)

  // ---------------------------------------------------------------------------------------------
  // Reading a count option the way `parseInt(value) || 2` does.

  /** An option as a caller may pass it: left out, an integer, or a string. */
  datatype OptionValue = Absent | Integer(n: int) | Text(s: string)

  /** The white space and line terminators that `parseInt` skips before the number. */
  predicate IsSpace(c: char)
  {
    || c == '\t' || c == '\n' || c == '\U{000B}' || c == '\U{000C}' || c == '\r' || c == ' '
    || c == '\U{00A0}' || c == '\U{1680}' || ('\U{2000}' <= c <= '\U{200A}')
    || c == '\U{2028}' || c == '\U{2029}' || c == '\U{202F}' || c == '\U{205F}' || c == '\U{3000}'
    || c == '\U{FEFF}'
  }

  /** `s` without its leading white space. */
  function TrimStart(s: string): (t: string)
    ensures |t| <= |s| && t == s[|s| - |t|..]
    ensures forall i :: 0 <= i < |s| - |t| ==> IsSpace(s[i])
    ensures |t| > 0 ==> !IsSpace(t[0])
  {
    if |s| > 0 && IsSpace(s[0]) then TrimStart(s[1..]) else s
  }

  /** The value of `c` as a digit, 36 for a character that is no digit in any radix up to 36. */
  function DigitValue(c: char): nat
  {
    if '0' <= c <= '9' then c as nat - '0' as nat
    else if 'a' <= c <= 'z' then c as nat - 'a' as nat + 10
    else if 'A' <= c <= 'Z' then c as nat - 'A' as nat + 10
    else 36
  }

  predicate IsDigit(c: char, radix: nat)
  {
    DigitValue(c) < radix
  }

  /** The longest prefix of `s` made of digits of `radix`. */
  function LeadingDigits(s: string, radix: nat): (z: string)
    ensures |z| <= |s| && z == s[..|z|]
    ensures forall i :: 0 <= i < |z| ==> IsDigit(z[i], radix)
    ensures |z| < |s| ==> !IsDigit(s[|z|], radix)
  {
    if |s| > 0 && IsDigit(s[0], radix) then [s[0]] + LeadingDigits(s[1..], radix) else []
  }

  /** The number that the digits `z` denote in `radix`, most significant digit first. */
  function ValueOf(z: string, radix: nat): nat
  {
    if z == [] then 0
    else ValueOf(z[..|z| - 1], radix) * radix + (if DigitValue(z[|z| - 1]) < radix then DigitValue(z[|z| - 1]) else 0)
  }

  /**
   * `parseInt` without a radix: skip leading white space, read an optional sign, then a `0x` or
   * `0X` prefix selects hexadecimal; the longest run of digits that follows is the value and the
   * rest of the string is ignored. No digits at all is NaN, here `None`.
   */
  function ParseInt(s: string): Option<int>
  {
    ParseSigned(TrimStart(s))
  }

  /** The number at the start of `t`, which has no leading white space, after an optional sign. */
  function ParseSigned(t: string): Option<int>
  {
    if |t| > 0 && t[0] == '-' then Negated(ParseUnsigned(t[1..]))
    else if |t| > 0 && t[0] == '+' then ParseUnsigned(t[1..])
    else ParseUnsigned(t)
  }

  /** The number at the start of `u`, which has no sign: hexadecimal after `0x` or `0X`, decimal otherwise. */
  function ParseUnsigned(u: string): Option<int>
  {
    var hex := |u| >= 2 && u[0] == '0' && (u[1] == 'x' || u[1] == 'X');
    var radix := if hex then 16 else 10;
    var z := LeadingDigits(if hex then u[2..] else u, radix);
    if z == [] then None else Some(ValueOf(z, radix))
  }

  function Negated(v: Option<int>): Option<int>
  {
    if v.Some? then Some(-v.value) else None
  }

  /** The decimal digits of `n`, without leading zeros. */
  function Decimal(n: nat): (d: string)
    ensures |d| > 0
    ensures forall i :: 0 <= i < |d| ==> '0' <= d[i] <= '9'
    ensures |d| > 1 ==> d[0] != '0'
  {
    if n < 10 then [('0' as nat + n) as char] else Decimal(n / 10) + [('0' as nat + n % 10) as char]
  }

  /**
   * JavaScript writes a number of this magnitude or more in exponent form (`1e+21`), so only
   * integers below it are printed digit by digit.
   */
  const ExponentFormFrom: int := 1_000_000_000_000_000_000_000

  /**
   * The string `parseInt` reads an option as: an integer in decimal, a string as itself. The
   * decimal form is JavaScript's only for integers below `ExponentFormFrom` in magnitude.
   */
  function AsString(v: OptionValue): string
  {
    match v
    case Absent => "undefined"
    case Integer(n) => if n < 0 then "-" + Decimal(-n) else Decimal(n)
    case Text(s) => s
  }

  /** A row or column count as the command reads it: NaN and zero fall back to 2. */
  function CountOrDefault(v: OptionValue): (n: int)
    ensures n != 0
    ensures ParseInt(AsString(v)).None? ==> n == 2
    ensures ParseInt(AsString(v)).Some? ==> n == if ParseInt(AsString(v)).value == 0 then 2 else ParseInt(AsString(v)).value
  {
    match ParseInt(AsString(v))
    case None => 2
    case Some(k) => if k == 0 then 2 else k
  }

  /** The decimal digits of `n` denote `n`. */
  lemma {:induction false} DecimalValue(n: nat)
    ensures ValueOf(Decimal(n), 10) == n
  {
    if n >= 10 {
      var d := Decimal(n);
      assert d[..|d| - 1] == Decimal(n / 10);
      DecimalValue(n / 10);
    }
  }

  /** A run of digits followed by something that is no digit is read up to that point. */
  lemma {:induction false} LeadingDigitsOf(z: string, rest: string, radix: nat)
    requires forall i :: 0 <= i < |z| ==> IsDigit(z[i], radix)
    requires |rest| > 0 ==> !IsDigit(rest[0], radix)
    ensures LeadingDigits(z + rest, radix) == z
  {
    if |z| > 0 {
      assert (z + rest)[1..] == z[1..] + rest;
      LeadingDigitsOf(z[1..], rest, radix);
    }
  }

  /** Letters, digits and signs are not white space. */
  lemma NotSpace(c: char)
    requires IsDigit(c, 36) || c == '-' || c == '+'
    ensures !IsSpace(c)
  {
  }

  /** A string that starts with a letter, a digit or a sign is not trimmed. */
  lemma NothingToTrim(s: string)
    requires |s| > 0 && (IsDigit(s[0], 36) || s[0] == '-' || s[0] == '+')
    ensures TrimStart(s) == s
  {
    NotSpace(s[0]);
  }

  /** A string that starts with a decimal digit, not as a `0x` prefix, holds its leading decimal digits. */
  lemma UnsignedDecimal(s: string)
    requires |s| > 0 && IsDigit(s[0], 10)
    requires !(|s| >= 2 && s[0] == '0' && (s[1] == 'x' || s[1] == 'X'))
    ensures ParseUnsigned(s) == Some(ValueOf(LeadingDigits(s, 10), 10))
  {
  }

  /** A string that starts with a digit is read without a sign. */
  lemma UnsignedStart(s: string)
    requires |s| > 0 && IsDigit(s[0], 10)
    ensures ParseInt(s) == ParseUnsigned(s)
  {
    NothingToTrim(s);
    assert s[0] != '-' && s[0] != '+';
    assert ParseSigned(s) == ParseUnsigned(s);
  }

  /** A minus sign followed by a digit negates what follows. */
  lemma NegativeStart(s: string)
    requires |s| > 0 && IsDigit(s[0], 10)
    ensures ParseInt("-" + s) == Negated(ParseUnsigned(s))
  {
    var e := "-" + s;
    NothingToTrim(e);
    assert TrimStart(e) == e && e[0] == '-' && e[1..] == s;
    assert ParseSigned(e) == Negated(ParseUnsigned(s));
  }

  /** A number written in decimal, followed by text that does not continue it, is read without a sign as that number. */
  lemma UnsignedDecimalThenText(n: nat, rest: string)
    requires |rest| > 0 ==> !IsDigit(rest[0], 36)
    ensures ParseUnsigned(Decimal(n) + rest) == Some(n)
  {
    DecimalThenTextDigits(n, rest);
    DecimalValue(n);
    UnsignedDecimal(Decimal(n) + rest);
  }

  /**
   * A number written in decimal and followed by text that does not continue it (no letter or
   * digit) reads back as that number, so `"3"` gives 3 and so does `"3 rows"`.
   */
  lemma DecimalThenText(n: nat, rest: string)
    requires |rest| > 0 ==> !IsDigit(rest[0], 36)
    ensures ParseInt(Decimal(n) + rest) == Some(n)
  {
    var s := Decimal(n) + rest;
    DecimalStartsWithDigit(n, rest);
    UnsignedStart(s);
    UnsignedDecimalThenText(n, rest);
    assert ParseInt(s) == ParseUnsigned(s);
  }

  /** With a minus sign in front, the same text reads back as the negative number. */
  lemma NegativeDecimalThenText(n: nat, rest: string)
    requires |rest| > 0 ==> !IsDigit(rest[0], 36)
    ensures ParseInt("-" + (Decimal(n) + rest)) == Some(-(n as int))
  {
    DecimalStartsWithDigit(n, rest);
    UnsignedDecimalThenText(n, rest);
    NegativeOf(Decimal(n) + rest, n);
  }

  /** A minus sign in front of digits that are read as `v` gives `-v`. */
  lemma NegativeOf(s: string, v: nat)
    requires |s| > 0 && IsDigit(s[0], 10) && ParseUnsigned(s) == Some(v)
    ensures ParseInt("-" + s) == Some(-(v as int))
  {
    NegativeStart(s);
  }

  /** Decimal digits followed by anything start with a digit. */
  lemma DecimalStartsWithDigit(n: nat, rest: string)
    ensures |Decimal(n) + rest| > 0 && IsDigit((Decimal(n) + rest)[0], 10)
  {
    assert (Decimal(n) + rest)[0] == Decimal(n)[0];
  }

  /** Decimal digits followed by text that does not continue them start with a digit and no `0x`. */
  lemma DecimalThenTextDigits(n: nat, rest: string)
    requires |rest| > 0 ==> !IsDigit(rest[0], 36)
    ensures var s := Decimal(n) + rest;
            && |s| > 0 && IsDigit(s[0], 10)
            && !(|s| >= 2 && s[0] == '0' && (s[1] == 'x' || s[1] == 'X'))
            && LeadingDigits(s, 10) == Decimal(n)
  {
    var d := Decimal(n);
    LeadingDigitsOf(d, rest, 10);
    if |d| == 1 && |rest| > 0 {
      assert (d + rest)[1] == rest[0];
    }
  }

  /** Leading white space does not change what `parseInt` reads. */
  lemma SpaceIgnored(w: string, s: string)
    requires forall i :: 0 <= i < |w| ==> IsSpace(w[i])
    ensures ParseInt(w + s) == ParseInt(s)
  {
    SpacePrefixTrimmed(w, s);
  }

  /** Trimming skips a prefix of white space. */
  lemma {:induction false} SpacePrefixTrimmed(w: string, s: string)
    requires forall i :: 0 <= i < |w| ==> IsSpace(w[i])
    ensures TrimStart(w + s) == TrimStart(s)
  {
    if |w| > 0 {
      assert (w + s)[0] == w[0];
      assert (w + s)[1..] == w[1..] + s;
      SpacePrefixTrimmed(w[1..], s);
    } else {
      assert w + s == s;
    }
  }

  /** An integer option reads back as itself: `parseInt(String(n)) == n`. */
  lemma IntegerRoundTrip(n: int)
    requires -ExponentFormFrom < n < ExponentFormFrom
    ensures ParseInt(AsString(Integer(n))) == Some(n)
  {
    if n < 0 {
      var m: nat := -n;
      assert AsString(Integer(n)) == "-" + Decimal(m);
      NegativeRoundTrip(m);
    } else {
      assert AsString(Integer(n)) == Decimal(n);
      PositiveRoundTrip(n);
    }
  }

  lemma PositiveRoundTrip(m: nat)
    ensures ParseInt(Decimal(m)) == Some(m)
  {
    var d := Decimal(m);
    DecimalThenText(m, "");
    assert d + "" == d;
  }

  lemma NegativeRoundTrip(m: nat)
    requires m > 0
    ensures ParseInt("-" + Decimal(m)) == Some(-(m as int))
  {
    var d := Decimal(m);
    NegativeDecimalThenText(m, "");
    assert "-" + (d + "") == "-" + d;
  }

  /** An integer option is taken as it is unless it is 0, which falls back to 2. */
  lemma IntegerCount(n: int)
    requires -ExponentFormFrom < n < ExponentFormFrom
    ensures CountOrDefault(Integer(n)) == if n == 0 then 2 else n
  {
    IntegerRoundTrip(n);
  }

  /** Without the option the count is 2: `parseInt` reads `"undefined"`, which holds no number. */
  lemma AbsentCount()
    ensures CountOrDefault(Absent) == 2
  {
    NotSpace('u');
    assert TrimStart("undefined") == "undefined";
    assert LeadingDigits("undefined", 10) == [];
  }

  /** A string with no leading number gives 2. */
  lemma TextWithoutNumberCount(s: string)
    requires |s| > 0 ==> IsDigit(s[0], 36) && !IsDigit(s[0], 10)
    ensures CountOrDefault(Text(s)) == 2
  {
    if |s| > 0 {
      NotSpace(s[0]);
    }
    assert TrimStart(s) == s;
  }

  /** A hexadecimal string is read in radix 16: `"0x1F"` is 31. */
  lemma HexadecimalCount()
    ensures CountOrDefault(Text("0x1F")) == 31
  {
    NotSpace('0');
    assert TrimStart("0x1F") == "0x1F";
    assert ParseSigned("0x1F") == ParseUnsigned("0x1F");
    HexadecimalDigits();
  }

  /** After the `0x` prefix, `"1F"` is a run of hexadecimal digits worth 31. */
  lemma HexadecimalDigits()
    ensures ParseUnsigned("0x1F") == Some(31)
  {
    assert "0x1F"[2..] == "1F";
    assert LeadingDigits("1F", 16) == "1F" by {
      assert "1F"[1..] == "F";
      assert LeadingDigits("F", 16) == "F" by { assert "F"[1..] == ""; }
    }
    assert ValueOf("1F", 16) == 31 by {
      assert "1F"[..1] == "1";
      assert ValueOf("1", 16) == 1 by { assert "1"[..0] == ""; }
    }
  }

  /** `"0x"` without hexadecimal digits holds no number, so the count is 2. */
  lemma EmptyHexadecimalCount()
    ensures CountOrDefault(Text("0x")) == 2
  {
    NotSpace('0');
    assert TrimStart("0x") == "0x";
    assert "0x"[2..] == "";
  }

  // ---------------------------------------------------------------------------------------------
  // The document and positions in it.

  /** A node of the document tree: an element with its children, or one character of text. */
  datatype Node = Element(name: string, children: seq<Node>) | Character(c: char)

  /** A position: the path of child indices to its parent element and the offset inside it. */
  datatype Position = Position(parentPath: seq<nat>, offset: nat)

  /** The node at `path` below `root`, if there is one. */
  function NodeAt(root: Node, path: seq<nat>): Option<Node>
    decreases |path|
  {
    if path == [] then Some(root)
    else match NodeAt(root, path[..|path| - 1])
      case Some(Element(_, children)) =>
        if path[|path| - 1] < |children| then Some(children[path[|path| - 1]]) else None
      case _ => None
  }

  /** Whether `p` lies in an element of the document, at an offset that element has. */
  predicate ValidPosition(root: Node, p: Position)
  {
    match NodeAt(root, p.parentPath)
    case Some(Element(_, children)) => p.offset <= |children|
    case _ => false
  }

  /**
   * The element a table would be inserted into: the root when the position lies directly in it,
   * otherwise the parent of the block that holds the position.
   */
  function InsertParent(p: Position): (path: seq<nat>)
    ensures p.parentPath == [] ==> path == []
    ensures p.parentPath != [] ==> path + [p.parentPath[|p.parentPath| - 1]] == p.parentPath
  {
    if p.parentPath == [] then [] else p.parentPath[..|p.parentPath| - 1]
  }

  /**
   * Where the table goes: at the position itself when it lies directly in the root, otherwise
   * just after the block that holds it.
   */
  function InsertPosition(p: Position): (q: Position)
    ensures q.parentPath == InsertParent(p)
    ensures p.parentPath == [] ==> q == p
    ensures p.parentPath != [] ==> q.parentPath + [q.offset - 1] == p.parentPath
  {
    if p.parentPath == [] then p
    else Position(p.parentPath[..|p.parentPath| - 1], p.parentPath[|p.parentPath| - 1] + 1)
  }

  /** The tree `root` with `node` inserted into the element at `path`, before child `offset`. */
  function InsertAt(root: Node, path: seq<nat>, offset: nat, node: Node): Node
    decreases |path|
  {
    if path == [] then
      match root
      case Element(name, children) =>
        if offset <= |children| then Element(name, children[..offset] + [node] + children[offset..]) else root
      case Character(_) => root
    else
      match root
      case Element(name, children) =>
        if path[0] < |children| then
          Element(name, children[path[0] := InsertAt(children[path[0]], path[1..], offset, node)])
        else root
      case Character(_) => root
  }

  /** Following `path` through `root` is following `path[0]` and then the rest of the path. */
  lemma {:induction false} NodeAtStep(root: Node, path: seq<nat>)
    requires path != []
    ensures NodeAt(root, path) ==
      match root
      case Element(_, children) => if path[0] < |children| then NodeAt(children[path[0]], path[1..]) else None
      case Character(_) => None
    decreases |path|
  {
    if |path| > 1 {
      var init := path[..|path| - 1];
      assert init[..|init| - 1] == path[..|path| - 2];
      NodeAtStep(root, init);
      assert init[0] == path[0] && init[1..] == path[1..][..|path| - 2];
    }
  }

  /**
   * Inserting into a valid position puts the node at `path + [offset]` and shifts the children at
   * and after `offset` right by one, leaving the element's other children in place.
   */
  lemma {:induction false} InsertedAt(root: Node, path: seq<nat>, offset: nat, node: Node)
    requires ValidPosition(root, Position(path, offset))
    ensures var parent := NodeAt(root, path).value;
            var after := NodeAt(InsertAt(root, path, offset, node), path);
            && after.Some? && after.value.Element?
            && after.value.name == parent.name
            && after.value.children == parent.children[..offset] + [node] + parent.children[offset..]
    decreases |path|
  {
    if path != [] {
      NodeAtStep(root, path);
      NodeAtStep(InsertAt(root, path, offset, node), path);
      var child := root.children[path[0]];
      assert NodeAt(root, path) == NodeAt(child, path[1..]);
      InsertedAt(child, path[1..], offset, node);
    }
  }

  // ---------------------------------------------------------------------------------------------
  // The command.

  /** The editor state the command reads and changes: the document root and the selection. */
  class EditorModel {
    var root: Node
    var selection: Position

    constructor (root: Node, selection: Position)
      ensures this.root == root && this.selection == selection
    {
      this.root := root;
      this.selection := selection;
    }
  }

  class InsertTableCommand {
    const model: EditorModel
    var isEnabled: bool

    constructor (model: EditorModel)
      ensures this.model == model && !isEnabled
    {
      this.model := model;
      isEnabled := false;
    }

    /**
     * Recomputes the enabled flag: the command is enabled exactly when the schema allows a table
     * in the element the table would be inserted into. `checkChild` is the schema's verdict on a
     * child named by the string inside the element at the path.
     */
    method Refresh(checkChild: (Node, seq<nat>, string) -> bool)
      modifies this
      ensures isEnabled == checkChild(model.root, InsertParent(model.selection), "table")
    {
      var validParent := InsertParent(model.selection);
      isEnabled := checkChild(model.root, validParent, "table");
    }

    /**
     * Inserts a table built by `createTable` from the row and column counts at the insert
     * position, and puts the selection at the start of its first cell. A table without a first
     * row holding a first cell (the counts may be negative) leaves no such cell: the command then
     * fails after the table is already in the document, `ok` is false and the selection stays.
     */
    method Execute(rows: OptionValue, columns: OptionValue, createTable: (int, int) -> Node) returns (ok: bool)
      requires ValidPosition(model.root, model.selection)
      modifies model
      ensures var at := InsertPosition(old(model.selection));
              var table := createTable(CountOrDefault(rows), CountOrDefault(columns));
              && ok == HasFirstCell(table)
              && model.root == InsertAt(old(model.root), at.parentPath, at.offset, table)
              && model.selection == if ok then Position(at.parentPath + [at.offset, 0, 0], 0) else old(model.selection)
    {
      var rowCount := CountOrDefault(rows);
      var columnCount := CountOrDefault(columns);
      var firstPosition := model.selection;
      var insertPosition := InsertPosition(firstPosition);
      var table := createTable(rowCount, columnCount);
      model.root := InsertAt(model.root, insertPosition.parentPath, insertPosition.offset, table);
      ok := HasFirstCell(table);
      if ok {
        model.selection := Position(insertPosition.parentPath + [insertPosition.offset, 0, 0], 0);
      }
    }
  }

  /**
   * Whether `table` has a first row whose first child is an element to put the selection in;
   * the command's `table.getChild( 0 ).getChild( 0 )` needs both.
   */
  predicate HasFirstCell(table: Node)
  {
    && table.Element? && |table.children| > 0
    && table.children[0].Element? && |table.children[0].children| > 0
    && table.children[0].children[0].Element?
  }

  /** A negative option is a negative count: `parseInt` reads the sign and `|| 2` only replaces NaN and 0. */
  lemma NegativeCount()
    ensures CountOrDefault(Text("-1")) == -1
  {
    NotSpace('-');
    assert TrimStart("-1") == "-1";
    assert "-1"[1..] == "1";
    assert LeadingDigits("1", 10) == "1";
  }

  /**
   * The insert position of a valid position is itself valid and lies in the element whose schema
   * verdict sets the enabled flag: the table goes where the check was made.
   */
  lemma InsertPositionValid(root: Node, p: Position)
    requires ValidPosition(root, p)
    ensures ValidPosition(root, InsertPosition(p))
    ensures InsertPosition(p).parentPath == InsertParent(p)
  {
    if p.parentPath != [] {
      var q := InsertPosition(p);
      assert p.parentPath[..|p.parentPath| - 1] == q.parentPath;
    }
  }

  /**
   * After the insertion the table is at the insert position, and the position the command selects
   * lies at the start of the first cell of its first row.
   */
  lemma ExecuteSelectsFirstCell(root: Node, p: Position, table: Node)
    requires ValidPosition(root, p)
    requires HasFirstCell(table)
    ensures var at := InsertPosition(p);
            var root' := InsertAt(root, at.parentPath, at.offset, table);
            && NodeAt(root', at.parentPath + [at.offset]) == Some(table)
            && NodeAt(root', at.parentPath + [at.offset, 0, 0]) == Some(table.children[0].children[0])
            && ValidPosition(root', Position(at.parentPath + [at.offset, 0, 0], 0))
  {
    var at := InsertPosition(p);
    InsertPositionValid(root, p);
    var root' := InsertAt(root, at.parentPath, at.offset, table);
    InsertedAt(root, at.parentPath, at.offset, table);
    var path := at.parentPath + [at.offset, 0, 0];
    assert path[..|path| - 1] == at.parentPath + [at.offset, 0];
    assert (at.parentPath + [at.offset, 0])[..|path| - 2] == at.parentPath + [at.offset];
    assert (at.parentPath + [at.offset])[..|path| - 3] == at.parentPath;
  }
}
