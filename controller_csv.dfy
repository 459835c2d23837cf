/**
 * The text `downloadCartAsCSV` builds (js/shopping-cart-tr.js): a header
 * line, one row per cart line in cart order whose last field is
 * `price * quantity`, a blank line and a `TOPLAM` row carrying `getTotal()`.
 * Names are written between double quotes without escaping.
 */
module ControllerCsv {
  import opened Wrappers
  import opened Decimal
  import opened ControllerLines

  /** "Ürün Adı,Fiyat,Miktar,Toplam" */
  const HeaderFields: string := "\U{00DC}r\U{00FC}n Ad\U{0131},Fiyat,Miktar,Toplam"

  const Header: string := HeaderFields + "\n"

  /** `"${name}",${price},${quantity},${price * quantity}` and a newline. */
  function Row(line: CartLine): string {
    "\"" + line.name + "\"," + IntToString(line.price) + "," + IntToString(line.quantity) + ","
      + IntToString(LineTotal(line)) + "\n"
  }

  /** The strings of `parts` one after another. */
  function Join(parts: seq<string>): string {
    if parts == [] then "" else Join(parts[..|parts| - 1]) + parts[|parts| - 1]
  }

  /** `f` applied to every line, in cart order. */
  function MapLines(f: CartLine -> string, cart: seq<CartLine>): seq<string> {
    seq(|cart|, i requires 0 <= i < |cart| => f(cart[i]))
  }

  function RowList(cart: seq<CartLine>): seq<string> {
    MapLines(Row, cart)
  }

  /** The rows of the lines in cart order. */
  function Rows(cart: seq<CartLine>): string {
    Join(RowList(cart))
  }

  function TotalRow(total: int): string {
    "TOPLAM," + IntToString(total) + "\n"
  }

  /** The whole text: header, rows, a blank line and the total row. */
  function CsvText(cart: seq<CartLine>): string {
    Header + Rows(cart) + "\n" + TotalRow(Total(cart))
  }

  // ----- reading the text back -----

  function CountChar(s: string, c: char): nat {
    if s == [] then 0 else CountChar(s[..|s| - 1], c) + (if s[|s| - 1] == c then 1 else 0)
  }

  /** The text after the last comma of s (all of s when it has none). */
  function AfterLastComma(s: string): string {
    if s == [] then ""
    else if s[|s| - 1] == ',' then ""
    else AfterLastComma(s[..|s| - 1]) + [s[|s| - 1]]
  }

  /** The last comma-separated field of one line, without its newline. */
  function LastField(line: string): string {
    if line != [] && line[|line| - 1] == '\n' then AfterLastComma(line[..|line| - 1]) else AfterLastComma(line)
  }

  lemma {:induction false} CountConcat(a: string, b: string, c: char)
    ensures CountChar(a + b, c) == CountChar(a, c) + CountChar(b, c)
  {
    if b == [] {
      assert a + b == a;
    } else {
      assert (a + b)[..|a + b| - 1] == a + b[..|b| - 1];
      CountConcat(a, b[..|b| - 1], c);
    }
  }

  lemma {:induction false} CountAbsent(s: string, c: char)
    requires forall k :: 0 <= k < |s| ==> s[k] != c
    ensures CountChar(s, c) == 0
  {
    if s != [] {
      CountAbsent(s[..|s| - 1], c);
    }
  }

  lemma {:induction false} AfterLastCommaOf(a: string, b: string)
    requires forall k :: 0 <= k < |b| ==> b[k] != ','
    ensures AfterLastComma(a + "," + b) == b
  {
    if b == [] {
      assert a + "," + b == a + [','];
    } else {
      var n := |b| - 1;
      assert (a + "," + b)[..|a + "," + b| - 1] == a + "," + b[..n];
      AfterLastCommaOf(a, b[..n]);
    }
  }

  /** The last field of a line ending in `,` + `${n}` + newline reads back as n. */
  lemma LastFieldOfNumber(prefix: string, n: int)
    ensures ParseInt(LastField(prefix + "," + IntToString(n) + "\n")) == Some(n)
  {
    var s := prefix + "," + IntToString(n) + "\n";
    assert s[..|s| - 1] == prefix + "," + IntToString(n);
    AfterLastCommaOf(prefix, IntToString(n));
    ParseIntToString(n);
  }

  /** Each row's last field is the line total `price * quantity`. */
  lemma RowLastField(line: CartLine)
    ensures ParseInt(LastField(Row(line))) == Some(LineTotal(line))
  {
    var prefix := "\"" + line.name + "\"," + IntToString(line.price) + "," + IntToString(line.quantity);
    assert Row(line) == prefix + "," + IntToString(LineTotal(line)) + "\n";
    LastFieldOfNumber(prefix, LineTotal(line));
  }

  lemma {:induction false} JoinConcat(a: seq<string>, b: seq<string>)
    ensures Join(a + b) == Join(a) + Join(b)
  {
    if b == [] {
      assert a + b == a;
    } else {
      var n := |b| - 1;
      assert (a + b)[..|a + b| - 1] == a + b[..n];
      JoinConcat(a, b[..n]);
      assert Join(a) + (Join(b[..n]) + b[n]) == Join(a) + Join(b[..n]) + b[n];
    }
  }

  lemma MapLinesConcat(f: CartLine -> string, a: seq<CartLine>, b: seq<CartLine>)
    ensures MapLines(f, a + b) == MapLines(f, a) + MapLines(f, b)
  {
  }

  lemma RowsConcat(a: seq<CartLine>, b: seq<CartLine>)
    ensures Rows(a + b) == Rows(a) + Rows(b)
  {
    MapLinesConcat(Row, a, b);
    JoinConcat(RowList(a), RowList(b));
  }

  /** One more line adds its row at the end. */
  lemma RowsSnoc(cart: seq<CartLine>, line: CartLine)
    ensures Rows(cart + [line]) == Rows(cart) + Row(line)
  {
    MapLinesConcat(Row, cart, [line]);
    assert RowList([line]) == [Row(line)];
  }

  /** The text written so far after rows 0..i, extended by row i. */
  lemma HeaderRowsStep(cart: seq<CartLine>, i: nat)
    requires i < |cart|
    ensures Header + Rows(cart[..i + 1]) == Header + Rows(cart[..i]) + Row(cart[i])
  {
    assert cart[..i + 1] == cart[..i] + [cart[i]];
    RowsSnoc(cart[..i], cart[i]);
    assert Header + (Rows(cart[..i]) + Row(cart[i])) == Header + Rows(cart[..i]) + Row(cart[i]);
  }

  /**
   * The rows between the header and the blank line are in cart order: the
   * row of line k follows the rows of the lines before it and precedes the
   * rows of the lines after it.
   */
  lemma RowsInOrder(cart: seq<CartLine>, k: nat)
    requires k < |cart|
    ensures Rows(cart) == Rows(cart[..k]) + Row(cart[k]) + Rows(cart[k + 1..])
  {
    MapJoinAt(Row, cart, k);
  }

  lemma MapJoinAt(f: CartLine -> string, cart: seq<CartLine>, k: nat)
    requires k < |cart|
    ensures Join(MapLines(f, cart)) == Join(MapLines(f, cart[..k])) + f(cart[k]) + Join(MapLines(f, cart[k + 1..]))
  {
    MapJoinSplit(f, cart, k + 1);
    MapJoinPrefixStep(f, cart, k);
  }

  lemma MapJoinSplit(f: CartLine -> string, cart: seq<CartLine>, k: nat)
    requires k <= |cart|
    ensures Join(MapLines(f, cart)) == Join(MapLines(f, cart[..k])) + Join(MapLines(f, cart[k..]))
  {
    assert cart[..k] + cart[k..] == cart;
    MapLinesConcat(f, cart[..k], cart[k..]);
    JoinConcat(MapLines(f, cart[..k]), MapLines(f, cart[k..]));
  }

  lemma MapJoinPrefixStep(f: CartLine -> string, cart: seq<CartLine>, k: nat)
    requires k < |cart|
    ensures Join(MapLines(f, cart[..k + 1])) == Join(MapLines(f, cart[..k])) + f(cart[k])
  {
    assert MapLines(f, cart[..k + 1])[..k] == MapLines(f, cart[..k]);
  }

  /** The total row starts with `TOPLAM,` and its last field reads back as the total. */
  lemma TotalRowField(total: int)
    ensures TotalRow(total)[..7] == "TOPLAM,"
    ensures ParseInt(LastField(TotalRow(total))) == Some(total)
  {
    LastFieldOfNumber("TOPLAM", total);
    assert TotalRow(total) == "TOPLAM" + "," + IntToString(total) + "\n";
  }

  /** The text ends with the newline closing the header or last row, a blank line and the `TOPLAM` row carrying `getTotal()`. */
  lemma CsvEndsWithTotalRow(cart: seq<CartLine>)
    ensures var t := CsvText(cart); var last := TotalRow(Total(cart));
      && |t| >= |last| + 2
      && t[|t| - |last| - 2..] == "\n\n" + last
      && last[..7] == "TOPLAM,"
      && ParseInt(LastField(last)) == Some(Total(cart))
  {
    var last := TotalRow(Total(cart));
    TotalRowField(Total(cart));
    var before := Header + Rows(cart);
    BodyEndsInNewline(cart);
    var t := CsvText(cart);
    assert t == before + "\n" + last;
    assert t[|before| - 1..] == before[|before| - 1..] + "\n" + last;
    assert before[|before| - 1..] == "\n";
  }

  /** The header and the rows before the blank line end in a newline. */
  lemma BodyEndsInNewline(cart: seq<CartLine>)
    ensures var b := Header + Rows(cart); |b| >= 1 && b[|b| - 1] == '\n'
  {
    if cart != [] {
      var n := |cart| - 1;
      assert cart == cart[..n] + [cart[n]];
      RowsSnoc(cart[..n], cart[n]);
      RowEndsInNewline(cart[n]);
      assert Header + Rows(cart) == (Header + Rows(cart[..n])) + Row(cart[n]);
    }
  }

  lemma RowEndsInNewline(line: CartLine)
    ensures |Row(line)| >= 1 && Row(line)[|Row(line)| - 1] == '\n'
  {
    var body := "\"" + line.name + "\"," + IntToString(line.price) + "," + IntToString(line.quantity) + ","
      + IntToString(LineTotal(line));
    assert Row(line) == body + "\n";
  }

  lemma RowNewlines(line: CartLine)
    requires forall k :: 0 <= k < |line.name| ==> line.name[k] != '\n'
    ensures CountChar(Row(line), '\n') == 1
  {
    var p := IntToString(line.price);
    var q := IntToString(line.quantity);
    var t := IntToString(LineTotal(line));
    var body := "\"" + line.name + "\"," + p + "," + q + "," + t;
    assert Row(line) == body + "\n";
    assert forall k :: 0 <= k < |body| ==> body[k] != '\n';
    CountAbsent(body, '\n');
    CountConcat(body, "\n", '\n');
    assert "\n"[..0] == [];
  }

  lemma {:induction false} JoinCount(parts: seq<string>, c: char)
    requires forall i :: 0 <= i < |parts| ==> CountChar(parts[i], c) == 1
    ensures CountChar(Join(parts), c) == |parts|
  {
    if parts != [] {
      var n := |parts| - 1;
      JoinCount(parts[..n], c);
      CountConcat(Join(parts[..n]), parts[n], c);
    }
  }

  lemma RowsNewlines(cart: seq<CartLine>)
    requires forall i, k :: 0 <= i < |cart| && 0 <= k < |cart[i].name| ==> cart[i].name[k] != '\n'
    ensures CountChar(Rows(cart), '\n') == |cart|
  {
    var rows := RowList(cart);
    forall i | 0 <= i < |rows|
      ensures CountChar(rows[i], '\n') == 1
    {
      RowNewlines(cart[i]);
    }
    JoinCount(rows, '\n');
  }

  /**
   * When no product name contains a newline the text has exactly
   * |cart| + 3 line breaks: the header, one per row, the blank line and the
   * total row. A name with a newline splits its row, since names are not escaped.
   */
  lemma CsvLineCount(cart: seq<CartLine>)
    requires forall i, k :: 0 <= i < |cart| && 0 <= k < |cart[i].name| ==> cart[i].name[k] != '\n'
    ensures CountChar(CsvText(cart), '\n') == |cart| + 3
  {
    var last := TotalRow(Total(cart));
    var digits := "TOPLAM," + IntToString(Total(cart));
    assert last == digits + "\n";
    assert forall k :: 0 <= k < |digits| ==> digits[k] != '\n';
    CountAbsent(digits, '\n');
    CountConcat(digits, "\n", '\n');
    assert forall k :: 0 <= k < |HeaderFields| ==> HeaderFields[k] != '\n';
    CountAbsent(HeaderFields, '\n');
    CountConcat(HeaderFields, "\n", '\n');
    assert "\n"[..0] == [];
    RowsNewlines(cart);
    CountConcat(Header, Rows(cart), '\n');
    CountConcat(Header + Rows(cart), "\n", '\n');
    CountConcat(Header + Rows(cart) + "\n", last, '\n');
  }
}
