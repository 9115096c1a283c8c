/** The add-supplier dialog: nine text fields, turned into a supplier draft
    on submit. `Number(text)` is modelled for plain decimals; anything it
    would read as NaN, and any form this model does not parse, gives None,
    which the suppliers page treats exactly like a missing field (a sum
    with it is NaN, a comparison with it is false). */
module AddSupplierModal {
  import opened Wrappers
  import Text
  import opened SupplierService
  import SuppliersPage
  import Ui

  /** The form's text fields. */
  datatype Form = Form(
    name: string, contactName: string, contactEmail: string, contactPhone: string, location: string,
    leadTimeDays: string, reliabilityScore: string, paymentTerms: string, productCategories: string)

  /** The form on opening and after every submit. */
  const EmptyForm := Form("", "", "", "", "", "0", "0.95", "Net 30", "")

  // ---------------------------------------------------------------------
  // Categories
  // ---------------------------------------------------------------------

  /** `productCategories.split(',').map(cat => cat.trim())`. */
  function Categories(raw: string): (cs: seq<string>)
    ensures |cs| == Text.CountChar(raw, ',') + 1
    ensures forall i :: 0 <= i < |cs| ==> ',' !in cs[i]
    ensures forall i :: 0 <= i < |cs| ==> |cs[i]| > 0 ==> !Text.IsSpace(cs[i][0]) && !Text.IsSpace(cs[i][|cs[i]| - 1])
  {
    var parts := Text.Split(raw, ',');
    Text.SplitCount(raw, ',');
    forall i | 0 <= i < |parts|
      ensures ',' !in Text.Trim(parts[i])
    {
      Text.TrimKeepsChars(parts[i], ',');
    }
    seq(|parts|, i requires 0 <= i < |parts| => Text.Trim(parts[i]))
  }

  /** An empty field still gives one category, the empty one. */
  lemma CategoriesOfEmpty()
    ensures Categories("") == [""]
  {
  }

  /** Comma-free names without surrounding whitespace, joined with commas,
      come back unchanged. */
  lemma CategoriesRoundTrip(cats: seq<string>)
    requires |cats| >= 1
    requires forall i :: 0 <= i < |cats| ==> ',' !in cats[i]
    requires forall i :: 0 <= i < |cats| ==> |cats[i]| > 0 ==> !Text.IsSpace(cats[i][0]) && !Text.IsSpace(cats[i][|cats[i]| - 1])
    ensures Categories(Text.Join(cats, ",")) == cats
  {
    Text.SplitJoin(cats, ',');
    forall i | 0 <= i < |cats|
      ensures Text.Trim(cats[i]) == cats[i]
    {
      Text.TrimUnpadded(cats[i]);
    }
  }

  /** Names typed with whitespace around them, as in " a , b ", come back
      as the bare names: each piece between commas is trimmed. */
  lemma CategoriesPaddedRoundTrip(cats: seq<string>, pre: seq<string>, post: seq<string>)
    requires |cats| >= 1 && |pre| == |cats| && |post| == |cats|
    requires forall i :: 0 <= i < |cats| ==> ',' !in cats[i]
    requires forall i :: 0 <= i < |cats| ==> |cats[i]| > 0 ==> !Text.IsSpace(cats[i][0]) && !Text.IsSpace(cats[i][|cats[i]| - 1])
    requires forall i :: 0 <= i < |cats| ==> Text.AllSpace(pre[i]) && Text.AllSpace(post[i])
    ensures Categories(Text.Join(seq(|cats|, i requires 0 <= i < |cats| => pre[i] + cats[i] + post[i]), ",")) == cats
  {
    var padded := seq(|cats|, i requires 0 <= i < |cats| => pre[i] + cats[i] + post[i]);
    forall i | 0 <= i < |cats|
      ensures ',' !in padded[i]
    {
      assert forall j :: 0 <= j < |pre[i]| ==> pre[i][j] != ',';
      assert forall j :: 0 <= j < |post[i]| ==> post[i][j] != ',';
    }
    Text.SplitJoin(padded, ',');
    forall i | 0 <= i < |cats|
      ensures Text.Trim(padded[i]) == cats[i]
    {
      Text.TrimPadded(pre[i], cats[i], post[i]);
    }
  }

  /** Splitting again what the split produced changes nothing. */
  lemma CategoriesStable(raw: string)
    ensures Categories(Text.Join(Categories(raw), ",")) == Categories(raw)
  {
    CategoriesRoundTrip(Categories(raw));
  }

  // ---------------------------------------------------------------------
  // `Number(text)`
  // ---------------------------------------------------------------------

  function Pow10(k: nat): nat {
    if k == 0 then 1 else 10 * Pow10(k - 1)
  }

  /** `Number(text)` for a whole number of days: blank text is 0, digits
      are their value, anything else is NaN. */
  function ParseWhole(text: string): (r: Option<int>)
    ensures Text.Trim(text) == "" ==> r == Some(0)
    ensures r.Some? ==> r.value >= 0
  {
    WholeOf(Text.Trim(text))
  }

  function WholeOf(t: string): Option<int> {
    if t == "" then Some(0)
    else if Text.AllDigits(t) then Some(Text.DigitsValue(t))
    else None
  }

  /** A decimal with at most four fractional digits, in basis points. */
  predicate IsDecimal(whole: string, frac: string) {
    Text.AllDigits(whole) && Text.AllDigits(frac) && |frac| <= 4 && (whole != "" || frac != "")
  }

  function DecimalValue(whole: string, frac: string): nat
    requires IsDecimal(whole, frac)
  {
    Text.DigitsValue(whole) * 10000 + Text.DigitsValue(frac) * Pow10(4 - |frac|)
  }

  /** `Number(text)` for a score, in basis points: blank text is 0, then
      digits, optionally a point and up to four more digits. */
  function ParseScore(text: string): (r: Option<int>)
    ensures Text.Trim(text) == "" ==> r == Some(0)
    ensures r.Some? ==> r.value >= 0
  {
    ScoreOf(Text.Trim(text))
  }

  function ScoreOf(t: string): Option<int> {
    if t == "" then Some(0)
    else if '.' !in t then (if Text.AllDigits(t) then Some(Text.DigitsValue(t) * 10000) else None)
    else
      var i := Text.IndexOf(t, '.');
      if IsDecimal(t[..i], t[i + 1..]) then Some(DecimalValue(t[..i], t[i + 1..])) else None
  }

  /** Whitespace around the text does not change either reading. */
  lemma ParseIgnoresSurroundingSpace(text: string)
    ensures ParseWhole(text) == ParseWhole(Text.Trim(text))
    ensures ParseScore(text) == ParseScore(Text.Trim(text))
  {
    Text.TrimIdempotent(text);
  }

  /** `String(n)` reads back as `n` days, and as `n` whole points of score. */
  lemma ParseRoundTrip(n: nat)
    ensures ParseWhole(Text.NatToString(n)) == Some(n)
    ensures ParseScore(Text.NatToString(n)) == Some(n * 10000)
  {
    var s := Text.NatToString(n);
    assert !Text.IsSpace(s[0]) && !Text.IsSpace(s[|s| - 1]);
    Text.TrimUnpadded(s);
    Text.NatToStringRoundTrip(n);
    assert '.' !in s by {
      assert forall i :: 0 <= i < |s| ==> Text.IsDigit(s[i]);
    }
  }

  /** Digits, a point and digits read as a decimal. */
  lemma ScoreOfPoint(whole: string, frac: string)
    requires Text.AllDigits(whole) && Text.AllDigits(frac)
    ensures ScoreOf(whole + "." + frac)
      == if IsDecimal(whole, frac) then Some(DecimalValue(whole, frac)) else None
  {
    var t := whole + "." + frac;
    assert t[|whole|] == '.';
    assert t[..|whole|] == whole && t[|whole| + 1..] == frac;
    assert '.' !in whole by {
      assert forall i :: 0 <= i < |whole| ==> Text.IsDigit(whole[i]);
    }
    Text.IndexOfFirst(t, '.', |whole|);
  }

  /** "0." followed by one to four digits reads as those digits scaled to
      four places. */
  lemma ParseFraction(t: string)
    requires 3 <= |t| <= 6 && t[0] == '0' && t[1] == '.' && Text.AllDigits(t[2..])
    ensures ParseScore(t) == Some(Text.DigitsValue(t[2..]) * Pow10(6 - |t|))
  {
    assert !Text.IsSpace(t[0]) && !Text.IsSpace(t[|t| - 1]) by {
      assert t[|t| - 1] == t[2..][|t| - 3];
    }
    Text.TrimUnpadded(t);
    ScoreOfZeroPoint(t);
  }

  lemma ScoreOfZeroPoint(t: string)
    requires 3 <= |t| <= 6 && t[0] == '0' && t[1] == '.' && Text.AllDigits(t[2..])
    ensures ScoreOf(t) == Some(Text.DigitsValue(t[2..]) * Pow10(6 - |t|))
  {
    assert t == "0" + "." + t[2..];
    ScoreOfPoint("0", t[2..]);
    ZeroWholeValue(t[2..]);
  }

  lemma ZeroWholeValue(frac: string)
    requires |frac| <= 4 && Text.AllDigits(frac)
    ensures IsDecimal("0", frac) && DecimalValue("0", frac) == Text.DigitsValue(frac) * Pow10(4 - |frac|)
  {
    assert Text.DigitsValue("0") == 0 by {
      assert "0"[..0] == "";
    }
  }

  /** The form's defaults read as 0 days and a 0.95 score. */
  lemma DefaultsParse()
    ensures ParseWhole(EmptyForm.leadTimeDays) == Some(0)
    ensures ParseScore(EmptyForm.reliabilityScore) == Some(9500)
  {
    DefaultLeadTime();
    DefaultScore();
  }

  lemma DefaultLeadTime()
    ensures ParseWhole("0") == Some(0)
  {
    ParseRoundTrip(0);
    assert Text.NatToString(0) == "0";
  }

  lemma DefaultScore()
    ensures ParseScore("0.95") == Some(9500)
  {
    var t := "0.95";
    assert t[2..] == "95";
    ParseFraction(t);
    NinetyFive();
  }

  lemma NinetyFive()
    ensures Text.DigitsValue("95") == 95 && Pow10(2) == 100
  {
    assert "95"[..1] == "9" && "9"[..0] == "";
  }

  // ---------------------------------------------------------------------
  // Submit
  // ---------------------------------------------------------------------

  /** The draft handed to `onSave`: the contact record from its three
      fields, the parsed numbers, and the split categories. It has none of
      the seed suppliers' fields. */
  function Draft(f: Form): (d: SupplierDraft)
    ensures d.name == f.name && d.location == Some(f.location) && d.paymentTerms == Some(f.paymentTerms)
    ensures d.contact == Some(Contact(f.contactName, f.contactEmail, f.contactPhone))
    ensures d.leadTimeDays == ParseWhole(f.leadTimeDays) && d.reliabilityScore == ParseScore(f.reliabilityScore)
    ensures d.productCategories == Some(Categories(f.productCategories))
    ensures d.contactPerson.None? && d.email.None? && d.phone.None? && d.address.None?
    ensures d.products.None? && d.performance.None? && d.lastOrder.None?
  {
    SupplierDraft(f.name, Some(Contact(f.contactName, f.contactEmail, f.contactPhone)), Some(f.location),
      ParseWhole(f.leadTimeDays), ParseScore(f.reliabilityScore), Some(f.paymentTerms),
      Some(Categories(f.productCategories)), None, None, None, None, None, None, None)
  }

  /** What a submit does: saves the draft, resets the form and closes. */
  datatype SubmitEffect = SubmitEffect(saved: SupplierDraft, form: Form, open: bool)

  function Submit(f: Form): (r: SubmitEffect)
    ensures r.saved == Draft(f)
    ensures r.form == EmptyForm && !r.open
  {
    SubmitEffect(Draft(f), EmptyForm, false)
  }

  /** A supplier saved from the dialog has every field the suppliers page
      searches, so the search never throws on it. */
  lemma SavedSupplierSearchable(f: Form, id: string, q: string)
    ensures SuppliersPage.Complete(Create(Submit(f).saved, id))
    ensures SuppliersPage.SupplierTest(q)(Create(Submit(f).saved, id)).Ok?
  {
    SuppliersPage.CompleteNeverThrows(q, Create(Submit(f).saved, id));
  }

  /** A supplier saved with the default score gets the top reliability
      badge. */
  lemma DefaultScoreBadge(f: Form, id: string)
    requires f.reliabilityScore == EmptyForm.reliabilityScore
    ensures SuppliersPage.ReliabilityBadge(Create(Submit(f).saved, id).reliabilityScore) == Ui.Default
  {
    DefaultsParse();
  }
}
