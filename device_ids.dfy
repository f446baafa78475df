/** `_normalize_device_id`: the canonical text form under which device identifiers are compared. */
module DeviceIds {
  import opened Text
  import opened Cells

  /**
   * `None` gives `''`; an integer gives its decimal form; any other value goes
   * through its `str()` text.
   */
  function NormalizeDeviceId(c: Cell): string {
    match c
    case Empty => ""
    case Int(i) => IntToString(i)
    case _ => DeviceIdOfText(PyStr(c))
  }

  /**
   * The text branch: blank text gives `''`; an ASCII digit string is replaced by
   * `str(int(text))`; then leading '0' characters are removed, leaving "0" if
   * nothing remains.
   */
  function DeviceIdOfText(s: string): string {
    var text := Strip(s);
    if text == "" then ""
    else
      var t := if AllDigits(text) then NatToString(ParseNat(text)) else text;
      ZerosDropped(t)
  }

  /** `text.lstrip('0') or '0'`. */
  function ZerosDropped(text: string): string {
    var stripped := LStripZeros(text);
    if stripped == "" then "0" else stripped
  }

  /**
   * The digit-string branch agrees with the general one: the id of any text is the
   * trimmed text without its leading zeros, or "0" when it held only zeros; blank
   * text gives `''`.
   */
  lemma TextIdIsTrimmedWithoutZeros(s: string)
    ensures DeviceIdOfText(s) == if Strip(s) == "" then "" else ZerosDropped(Strip(s))
  {
    var text := Strip(s);
    if text != "" && AllDigits(text) {
      DecimalRoundTrip(text);
      var n := NatToString(ParseNat(text));
      var t := LStripZeros(text);
      LStripZerosFacts(text);
      if t == [] {
        assert n == "0";
        assert n[1..] == [];
        assert LStripZeros(n) == "";
      } else {
        assert n == t;
        assert LStripZeros(n) == n;
      }
    }
  }

  /** An all-digit text gives the decimal form of its value. */
  lemma DeviceIdOfDigits(s: string)
    requires AllDigits(Strip(s))
    ensures NormalizeDeviceId(Str(s)) == NatToString(ParseNat(Strip(s)))
  {
    var n := NatToString(ParseNat(Strip(s)));
    NatToStringFacts(ParseNat(Strip(s)));
    if n != "0" {
      assert LStripZeros(n) == n;
    } else {
      assert n[1..] == [];
      assert LStripZeros(n) == LStripZeros(n[1..]) == "";
    }
    assert DeviceIdOfText(s) == ZerosDropped(n);
  }

  /** The id of a non-negative integer is all digits and reads back as that integer. */
  lemma IntegerIdReadsBack(i: int)
    requires i >= 0
    ensures DigitsOnly(NormalizeDeviceId(Int(i))) && ParseNat(NormalizeDeviceId(Int(i))) == i
  {
    ParseNatOfNatToString(i);
  }

  /** The id is empty exactly for `None` and for values whose text is blank. */
  lemma DeviceIdEmptyIff(c: Cell)
    ensures NormalizeDeviceId(c) == "" <==> c.Empty? || (!c.Int? && forall i | 0 <= i < |PyStr(c)| :: IsSpace(PyStr(c)[i]))
  {
    match c
    case Empty =>
    case Int(i) =>
      NatToStringFacts(if i < 0 then -i else i);
    case _ =>
      StripFacts(PyStr(c));
      TextIdIsTrimmedWithoutZeros(PyStr(c));
  }

  /** A non-empty id of a text is "0" or has no leading zero, and does not end in whitespace. */
  lemma TextIdCanonical(s: string)
    ensures var id := DeviceIdOfText(s);
      id == "" || ((id == "0" || id[0] != '0') && !IsSpace(id[|id| - 1]))
  {
    TextIdIsTrimmedWithoutZeros(s);
    var text := Strip(s);
    StripFacts(s);
    var id := DeviceIdOfText(s);
    LStripZerosFacts(text);
    if text != "" && LStripZeros(text) != "" {
      assert id == LStripZeros(text);
      assert id[|id| - 1] == text[|text| - 1];
    }
  }

  lemma DeviceIdCanonical(c: Cell)
    ensures var id := NormalizeDeviceId(c);
      id == "" || ((id == "0" || id[0] != '0') && !IsSpace(id[|id| - 1]))
  {
    match c
    case Empty =>
    case Int(i) =>
      var n := NatToString(if i < 0 then -i else i);
      NatToStringFacts(if i < 0 then -i else i);
      assert !IsSpace(n[|n| - 1]);
    case _ =>
      TextIdCanonical(PyStr(c));
  }

  /**
   * Normalising an id a second time gives the same id exactly when the id is empty
   * or does not start with whitespace (" 5", from "0 5", normalises to "5").
   */
  lemma DeviceIdIdempotentIff(c: Cell)
    ensures var id := NormalizeDeviceId(c);
      NormalizeDeviceId(Str(id)) == id <==> id == "" || !IsSpace(id[0])
  {
    var id := NormalizeDeviceId(c);
    DeviceIdCanonical(c);
    TextIdIsTrimmedWithoutZeros(id);
    if id != "" && !IsSpace(id[0]) {
      StripNoop(id);
      if id != "0" {
        assert LStripZeros(id) == id;
      } else {
        assert LStripZeros(id) == LStripZeros(id[1..]) == "";
      }
    } else if id != "" {
      StripShortens(id);
      StripFacts(id);
      LStripZerosFacts(Strip(id));
      assert |NormalizeDeviceId(Str(id))| < |id|;
    }
  }

  /** "0001" gives "1". */
  lemma LeadingZerosExample()
    ensures NormalizeDeviceId(Str("0001")) == "1"
  {
    StripNoop("0001");
    assert AllDigits("0001");
    assert "0001"[..3] == "000" && "000"[..2] == "00" && "00"[..1] == "0" && "0"[..0] == "";
    assert ParseNat("0001") == 1;
    assert NatToString(1) == "1";
    assert LStripZeros("1") == "1";
  }

  /** "0000" gives "0". */
  lemma AllZerosExample()
    ensures NormalizeDeviceId(Str("0000")) == "0"
  {
    StripNoop("0000");
    assert AllDigits("0000");
    assert "0000"[..3] == "000" && "000"[..2] == "00" && "00"[..1] == "0" && "0"[..0] == "";
    assert ParseNat("0000") == 0;
    assert NatToString(0) == "0";
    assert LStripZeros("0") == "";
  }

  /** "0 5" gives " 5" ... */
  lemma ZeroSpaceFiveExample()
    ensures NormalizeDeviceId(Str("0 5")) == " 5"
  {
    StripNoop("0 5");
    assert !IsDigit("0 5"[1]);
    assert "0 5"[1..] == " 5";
    assert LStripZeros("0 5") == " 5";
  }

  /** ... which normalises again to "5", so the normaliser is not idempotent. */
  lemma SpaceFiveExample()
    ensures NormalizeDeviceId(Str(" 5")) == "5"
  {
    assert " 5"[1..] == "5";
    StripNoop("5");
    assert Strip(" 5") == "5";
    assert AllDigits("5") && "5"[..0] == "";
    assert ParseNat("5") == 5 && NatToString(5) == "5";
    assert LStripZeros("5") == "5";
  }
}
