/**
 * The QR scanner panel: what it does with a scanned text. The two regular
 * expressions of `handleAddToExpense` are spelled out here with the
 * semantics of ECMAScript's `String.prototype.match` (leftmost match, greedy
 * `.*` that backtracks, `.` not matching line terminators); `PayMatch` and
 * `AmountMatch` state what a match of each pattern is, and the functions
 * that find them are proved to return the match the regular expression
 * engine selects.
 */
module QRScanner {
  import opened Wrappers
  import opened JsString

  const PayScheme: string := "upi://pay?"
  const PayeeKey: string := "pa="
  const AmountKey: string := "am="

  /** The characters `.` does not match: the ECMAScript line terminators. */
  predicate IsLineTerminator(c: char) {
    c == '\n' || c == '\r' || c == '\U{2028}' || c == '\U{2029}'
  }

  /** `p` occurs in `s` at index `i`. */
  predicate At(s: string, p: string, i: int) {
    0 <= i && i + |p| <= |s| && s[i..i + |p|] == p
  }

  /** `pa=` at `k`, followed by the first character of `([^&]+)`. */
  predicate PayeeAt(s: string, k: int) {
    At(s, PayeeKey, k) && k + 3 < |s| && s[k + 3] != '&'
  }

  /**
   * `/upi:\/\/pay\?.*pa=([^&]+)/` matches with its `upi://pay?` at `i` and
   * its `pa=` at `k`: what `.*` spans holds no line terminator.
   */
  ghost predicate PayMatch(s: string, i: int, k: int) {
    && At(s, PayScheme, i)
    && i + |PayScheme| <= k
    && PayeeAt(s, k)
    && forall m :: i + |PayScheme| <= m < k ==> !IsLineTerminator(s[m])
  }

  /** The match `match` returns: the leftmost start, and there the longest `.*`. */
  ghost predicate SelectedPayMatch(s: string, i: int, k: int) {
    && PayMatch(s, i, k)
    && (forall i', k' :: i' < i ==> !PayMatch(s, i', k'))
    && (forall k' :: PayMatch(s, i, k') ==> k' <= k)
  }

  /** Where `.*` must stop: the first line terminator at or after `j`, or the end. */
  function LineEnd(s: string, j: nat): (e: nat)
    requires j <= |s|
    ensures j <= e <= |s|
    ensures forall m :: j <= m < e ==> !IsLineTerminator(s[m])
    ensures e < |s| ==> IsLineTerminator(s[e])
    decreases |s| - j
  {
    if j == |s| || IsLineTerminator(s[j]) then j else LineEnd(s, j + 1)
  }

  /** Greedy `.*` backtracking from `hi`: the greatest `k` in `j..hi` with `pa=` there. */
  function LastPayee(s: string, j: nat, hi: nat): (r: Option<nat>)
    ensures r.Some? ==> j <= r.value <= hi && PayeeAt(s, r.value)
    ensures forall k :: j <= k <= hi && PayeeAt(s, k) ==> r.Some? && k <= r.value
    decreases hi - j
  {
    if hi < j then None
    else if PayeeAt(s, hi) then Some(hi)
    else if hi == j then None
    else LastPayee(s, j, hi - 1)
  }

  /** The engine's search: every start from `from` on, left to right. */
  function FirstPayMatch(s: string, from: nat): (r: Option<(nat, nat)>)
    ensures r.Some? ==> from <= r.value.0 && PayMatch(s, r.value.0, r.value.1)
    ensures r.Some? ==> forall k :: PayMatch(s, r.value.0, k) ==> k <= r.value.1
    ensures forall i, k :: from <= i && PayMatch(s, i, k) ==> r.Some? && r.value.0 <= i
    decreases |s| - from
  {
    if |s| < from + |PayScheme| then None
    else
      var j := from + |PayScheme|;
      var e := LineEnd(s, j);
      var later := FirstPayMatch(s, from + 1);
      if At(s, PayScheme, from) && LastPayee(s, j, e).Some? then
        PayMatchEnds(s, from, e);
        Some((from, LastPayee(s, j, e).value))
      else
        PayMatchEnds(s, from, e);
        later
  }

  /** A `pa=` reachable by `.*` from `i` lies before the line end. */
  lemma PayMatchEnds(s: string, i: nat, e: nat)
    requires i + |PayScheme| <= |s| && e == LineEnd(s, i + |PayScheme|)
    ensures forall k :: PayMatch(s, i, k) ==> k <= e
  {
    forall k | PayMatch(s, i, k) ensures k <= e {
    }
  }

  /** `FirstPayMatch` finds exactly the match `match` returns. */
  lemma FirstPayMatchSelected(s: string, i: nat, k: nat)
    ensures FirstPayMatch(s, 0) == Some((i, k)) <==> SelectedPayMatch(s, i, k)
  {
    var r := FirstPayMatch(s, 0);
    if SelectedPayMatch(s, i, k) {
      assert r.Some? && r.value.0 <= i;
      assert r.value.0 == i;
    }
  }

  /** Where `[^&]+` stops: the first `&` at or after `p`, or the end. */
  function AmpersandEnd(s: string, p: nat): (e: nat)
    requires p <= |s|
    ensures p <= e <= |s|
    ensures '&' !in s[p..e]
    ensures e < |s| ==> s[e] == '&'
    decreases |s| - p
  {
    if p == |s| || s[p] == '&' then p
    else
      var e := AmpersandEnd(s, p + 1);
      assert s[p..e] == [s[p]] + s[p + 1..e];
      e
  }

  /**
   * `upiMatch ? upiMatch[1] : scannedData`: the payee captured after the
   * `pa=` the engine selects, or the whole text when the pattern does not
   * match.
   */
  function UpiId(s: string): (id: string)
    ensures (forall i, k :: !PayMatch(s, i, k)) ==> id == s
    ensures forall i, k :: SelectedPayMatch(s, i, k) ==>
              id == s[k + 3..AmpersandEnd(s, k + 3)] && id != [] && '&' !in id
  {
    match FirstPayMatch(s, 0)
    case None => s
    case Some((i, k)) =>
      forall i', k' | SelectedPayMatch(s, i', k') ensures i' == i && k' == k {
        FirstPayMatchSelected(s, i', k');
      }
      s[k + 3..AmpersandEnd(s, k + 3)]
  }

  /** A text holding no `upi://pay?` is its own payee. */
  lemma NoPayLinkWholeText(s: string)
    requires !Contains(s, PayScheme)
    ensures UpiId(s) == s
  {
    forall i, k | PayMatch(s, i, k) ensures false {
      assert OccursAt(s, PayScheme, i);
      OccursAtContains(s, PayScheme, i);
    }
  }

  /** A later `pa=` on the same line overrides an earlier one. */
  lemma LaterPayeeWins(s: string, i: nat, k: nat, k': nat)
    requires SelectedPayMatch(s, i, k) && PayMatch(s, i, k')
    ensures k' <= k
  {
  }

  predicate IsDigit(c: char) {
    '0' <= c <= '9'
  }

  predicate IsAmountChar(c: char) {
    IsDigit(c) || c == '.'
  }

  /** `/am=([0-9.]+)/` matches at `i`. */
  ghost predicate AmountMatch(s: string, i: int) {
    At(s, AmountKey, i) && i + 3 < |s| && IsAmountChar(s[i + 3])
  }

  /** The engine's search for `am=` followed by a digit or a dot, from the left. */
  function FirstAmountMatch(s: string, from: nat): (r: Option<nat>)
    ensures r.Some? ==> from <= r.value && AmountMatch(s, r.value)
    ensures r.Some? ==> forall i :: from <= i < r.value ==> !AmountMatch(s, i)
    ensures r.None? ==> forall i :: from <= i ==> !AmountMatch(s, i)
    decreases |s| - from
  {
    if |s| < from + 4 then None
    else if At(s, AmountKey, from) && IsAmountChar(s[from + 3]) then Some(from)
    else FirstAmountMatch(s, from + 1)
  }

  /** Where greedy `[0-9.]+` stops. */
  function AmountRunEnd(s: string, p: nat): (e: nat)
    requires p <= |s|
    ensures p <= e <= |s|
    ensures forall m :: p <= m < e ==> IsAmountChar(s[m])
    ensures e < |s| ==> !IsAmountChar(s[e])
    decreases |s| - p
  {
    if p == |s| || !IsAmountChar(s[p]) then p else AmountRunEnd(s, p + 1)
  }

  /** The match `match` returns: the leftmost one. */
  ghost predicate SelectedAmountMatch(s: string, i: int) {
    AmountMatch(s, i) && forall i' :: i' < i ==> !AmountMatch(s, i')
  }

  /** `amountMatch[1]`: the digits and dots after the leftmost matching `am=`. */
  function AmountText(s: string): (r: Option<string>)
    ensures r.None? <==> forall i :: !AmountMatch(s, i)
    ensures forall i :: SelectedAmountMatch(s, i) ==> r == Some(s[i + 3..AmountRunEnd(s, i + 3)])
    ensures r.Some? ==> r.value != [] && forall c :: c in r.value ==> IsAmountChar(c)
  {
    match FirstAmountMatch(s, 0)
    case None => None
    case Some(i) => Some(s[i + 3..AmountRunEnd(s, i + 3)])
  }

  /** Where a run of decimal digits starting at `p` stops. */
  function DigitRunEnd(s: string, p: nat): (e: nat)
    requires p <= |s|
    ensures p <= e <= |s|
    ensures forall m :: p <= m < e ==> IsDigit(s[m])
    ensures e < |s| ==> !IsDigit(s[e])
    decreases |s| - p
  {
    if p == |s| || !IsDigit(s[p]) then p else DigitRunEnd(s, p + 1)
  }

  /** The number a string of decimal digits denotes. */
  function DigitsValue(d: string): nat
    requires forall m :: 0 <= m < |d| ==> IsDigit(d[m])
    decreases |d|
  {
    if d == [] then 0
    else
      var c := d[|d| - 1];
      assert IsDigit(c);
      10 * DigitsValue(d[..|d| - 1]) + (c as int - '0' as int)
  }

  function Pow10(n: nat): (p: nat)
    ensures p >= 1
  {
    if n == 0 then 1 else 10 * Pow10(n - 1)
  }

  /**
   * `parseFloat` of a text starting with digits and dots: the longest prefix
   * that is a decimal literal (digits, optionally a dot and more digits, or a
   * dot and at least one digit); `None` stands for `NaN`.
   */
  function ParseDecimal(t: string): (r: Option<real>)
    ensures r.None? <==> !(|t| > 0 && IsDigit(t[0])) && !(|t| > 1 && t[0] == '.' && IsDigit(t[1]))
    ensures r.Some? ==> r.value >= 0.0
  {
    var e := DigitRunEnd(t, 0);
    if e < |t| && t[e] == '.' then
      var f := DigitRunEnd(t, e + 1);
      if e == 0 && f == 1 then None
      else Some(DigitsValue(t[..e]) as real + DigitsValue(t[e + 1..f]) as real / Pow10(f - e - 1) as real)
    else if e == 0 then None
    else Some(DigitsValue(t[..e]) as real)
  }

  /** The digits of `String(n)` denote `n`. */
  lemma {:induction false} NatStringValue(n: nat)
    ensures DigitsValue(NatString(n)) == n
    decreases n
  {
    var s := NatString(n);
    if n >= 10 {
      NatStringValue(n / 10);
      assert s[..|s| - 1] == NatString(n / 10);
    }
  }

  /** `parseFloat(String(n))` is `n`. */
  lemma ParseNatString(n: nat)
    ensures ParseDecimal(NatString(n)) == Some(n as real)
  {
    var s := NatString(n);
    assert DigitRunEnd(s, 0) == |s| by {
      DigitRunAll(s, 0);
    }
    assert s[..|s|] == s;
    NatStringValue(n);
  }

  lemma {:induction false} DigitRunAll(s: string, p: nat)
    requires p <= |s| && forall m :: 0 <= m < |s| ==> IsDigit(s[m])
    ensures DigitRunEnd(s, p) == |s|
    decreases |s| - p
  {
    if p < |s| {
      DigitRunAll(s, p + 1);
    }
  }

  /** `amountMatch ? parseFloat(amountMatch[1]) : 0`; `None` is `NaN`. */
  function ExpenseAmount(s: string): (a: Option<real>)
    ensures AmountText(s).None? ==> a == Some(0.0)
    ensures a.None? ==> AmountText(s).Some? && AmountText(s).value[0] == '.'
    ensures a.Some? ==> a.value >= 0.0
  {
    match AmountText(s)
    case None => Some(0.0)
    case Some(t) => ParseDecimal(t)
  }

  /** The digits after the first matching `am=` are the amount text, up to the next non-amount character. */
  lemma AmountTextOfField(p: string, d: string, rest: string)
    requires d != [] && forall m :: 0 <= m < |d| ==> IsDigit(d[m])
    requires forall i :: i < |p| ==> !AmountMatch(p + AmountKey + d + rest, i)
    requires rest == [] || !IsAmountChar(rest[0])
    ensures AmountText(p + AmountKey + d + rest) == Some(d)
  {
    var s := p + AmountKey + d + rest;
    var i := |p|;
    assert s[i..i + 3] == AmountKey;
    assert s[i + 3] == d[0];
    assert SelectedAmountMatch(s, i);
    assert s[i + 3..] == d + rest;
    AmountRunPast(s, i + 3, d, rest);
    assert s[i + 3..i + 3 + |d|] == d;
  }

  /** A whole number after the first `am=` is the amount recorded. */
  lemma AmountOfField(p: string, n: nat, rest: string)
    requires forall i :: i < |p| ==> !AmountMatch(p + AmountKey + NatString(n) + rest, i)
    requires rest == [] || !IsAmountChar(rest[0])
    ensures ExpenseAmount(p + AmountKey + NatString(n) + rest) == Some(n as real)
  {
    AmountTextOfField(p, NatString(n), rest);
    ParseNatString(n);
  }

  lemma AmountRunPast(s: string, p: nat, d: string, rest: string)
    requires p + |d| + |rest| == |s| && s[p..] == d + rest
    requires forall m :: 0 <= m < |d| ==> IsDigit(d[m])
    requires rest == [] || !IsAmountChar(rest[0])
    ensures AmountRunEnd(s, p) == p + |d|
    decreases |d|
  {
    if d == [] {
      if rest != [] {
        assert s[p] == rest[0];
      }
    } else {
      assert s[p] == d[0];
      assert s[p + 1..] == d[1..] + rest;
      AmountRunPast(s, p + 1, d[1..], rest);
    }
  }

  /** The JavaScript truthiness of `scannedData`: present and non-empty. */
  predicate Truthy(data: Option<string>) {
    data.Some? && data.value != ""
  }

  /** `isUrl`. */
  predicate IsUrl(data: Option<string>) {
    Truthy(data) && (StartsWith(data.value, "http://") || StartsWith(data.value, "https://"))
  }

  /** `isUpi`. */
  predicate IsUpi(data: Option<string>) {
    Truthy(data) && (Contains(data.value, "upi://") || Contains(data.value, "@"))
  }

  /** A UPI link is offered as a UPI ID, never as a link to open. */
  lemma UpiLinkClassified(s: string)
    requires StartsWith(s, "upi://")
    ensures IsUpi(Some(s)) && !IsUrl(Some(s))
  {
    assert s[0] == 'u';
  }

  /** Any text the payee pattern matches is classified as UPI data. */
  lemma PayMatchIsUpi(s: string, i: nat, k: nat)
    requires PayMatch(s, i, k)
    ensures IsUpi(Some(s))
  {
    assert s[i..i + 6] == s[i..i + 10][..6];
    assert OccursAt(s, "upi://", i);
    OccursAtContains(s, "upi://", i);
  }

  /** What `openLink` does: open the text in a new tab, or raise the error toast. */
  datatype LinkAction = OpenTab(url: string) | InvalidUrlToast

  function OpenLink(data: Option<string>): (r: LinkAction)
    ensures r.OpenTab? <==> IsUrl(data)
    ensures r.OpenTab? ==> r.url == data.value
  {
    if IsUrl(data) then OpenTab(data.value) else InvalidUrlToast
  }

  /** A call of the `onAddToExpense` callback. */
  datatype Expense = Expense(amount: Option<real>, upiId: string)

  /** The panel's scanned text and the calls it has made to its callback. */
  class ScannerPanel {
    const hasCallback: bool
    var scannedData: Option<string>
    var recorded: seq<Expense>

    constructor (hasCallback: bool)
      ensures this.hasCallback == hasCallback
      ensures scannedData.None? && recorded == []
    {
      this.hasCallback := hasCallback;
      scannedData := None;
      recorded := [];
    }

    /** The scanner's success callback: the decoded text is kept. */
    method Scanned(decodedText: string)
      modifies this`scannedData
      ensures scannedData == Some(decodedText)
    {
      scannedData := Some(decodedText);
    }

    /** `handleClose` and closing the result dialog. */
    method Close()
      modifies this`scannedData
      ensures scannedData.None?
    {
      scannedData := None;
    }

    /**
     * `handleAddToExpense`: with scanned text and a callback, records the
     * extracted amount and payee and clears the text; otherwise does nothing.
     */
    method AddToExpense()
      modifies this`scannedData, this`recorded
      ensures Truthy(old(scannedData)) && hasCallback ==>
                && recorded == old(recorded) + [Expense(ExpenseAmount(old(scannedData).value), UpiId(old(scannedData).value))]
                && scannedData.None?
      ensures !(Truthy(old(scannedData)) && hasCallback) ==>
                recorded == old(recorded) && scannedData == old(scannedData)
    {
      if Truthy(scannedData) && hasCallback {
        var data := scannedData.value;
        recorded := recorded + [Expense(ExpenseAmount(data), UpiId(data))];
        scannedData := None;
      }
    }
  }
}
