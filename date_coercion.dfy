/** `_coerce_datetime`: turning a cell value into a `datetime`, or `None`. */
module DateCoercion {
  import opened Text
  import opened Wrappers
  import opened Dates
  import opened Cells

  /** The `strptime` layouts, in the order they are tried. */
  datatype Format = IsoDate | IsoDateTime | UsDate | UsDateTime | DayMonthYear

  /** "%Y-%m-%d", "%Y-%m-%d %H:%M:%S", "%m/%d/%Y", "%m/%d/%Y %H:%M", "%d-%b-%Y". */
  const Formats: seq<Format> := [IsoDate, IsoDateTime, UsDate, UsDateTime, DayMonthYear]

  /**
   * The date facilities the program borrows: `datetime.strptime(text, format)`,
   * `None` where it raises `ValueError`, and `from_excel(value, epoch)` with the
   * journey workbook's epoch, `None` where it raises.
   */
  datatype Calendar = Calendar(strptime: (Format, string) -> Option<DateTime>, fromSerial: int -> Option<DateTime>)

  /** The position of the first format at or after `from` under which the text parses. */
  function FirstParsing(cal: Calendar, text: string, from: nat): (i: nat)
    requires from <= |Formats|
    ensures from <= i <= |Formats|
    ensures i < |Formats| ==> cal.strptime(Formats[i], text).Some?
    ensures forall p | from <= p < i :: cal.strptime(Formats[p], text).None?
    decreases |Formats| - from
  {
    if from == |Formats| || cal.strptime(Formats[from], text).Some? then from
    else FirstParsing(cal, text, from + 1)
  }

  /** The formats tried in order on a trimmed text: the first that parses wins. */
  function ParseText(cal: Calendar, text: string): (r: Option<DateTime>)
    ensures r.None? <==> forall p | 0 <= p < |Formats| :: cal.strptime(Formats[p], text).None?
    ensures r.Some? ==> exists i | 0 <= i < |Formats| ::
      && r == cal.strptime(Formats[i], text)
      && forall p | 0 <= p < i :: cal.strptime(Formats[p], text).None?
  {
    var i := FirstParsing(cal, text, 0);
    if i < |Formats| then cal.strptime(Formats[i], text) else None
  }

  /**
   * `None`, `''` and blank text give `None`; a `datetime` comes back unchanged; an
   * integer is an Excel serial date; any other text is trimmed and parsed; every
   * other value gives `None`.
   */
  function CoerceDatetime(cal: Calendar, c: Cell): (r: Option<DateTime>)
    ensures c.Empty? || c.Other? ==> r.None?
    ensures c.Date? ==> r == Some(c.d)
    ensures c.Int? ==> r == cal.fromSerial(c.i)
    ensures c.Str? ==> r == if Strip(c.s) == "" then None else ParseText(cal, Strip(c.s))
  {
    match c
    case Empty => None
    case Str(s) =>
      if s == "" then None
      else
        var text := Strip(s);
        if text == "" then None else ParseText(cal, text)
    case Date(d) => Some(d)
    case Int(i) => cal.fromSerial(i)
    case Other(_) => None
  }

  /** Blank text never yields a date, whatever the parsers accept. */
  lemma BlankTextHasNoDate(cal: Calendar, s: string)
    requires forall i | 0 <= i < |s| :: IsSpace(s[i])
    ensures CoerceDatetime(cal, Str(s)).None?
  {
    StripFacts(s);
  }

  /** A text is tried against the formats after trimming, so surrounding blanks do not matter. */
  lemma TrimmedTextSameDate(cal: Calendar, s: string)
    ensures CoerceDatetime(cal, Str(Strip(s))) == CoerceDatetime(cal, Str(s))
  {
    StripIdempotent(s);
  }
}
