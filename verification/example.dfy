/** A worked request: the header of a fee sheet, the amount texts of its
    rows, and the summary and room report of its two cleaned records. */
module ReportExample {
  import opened JsText
  import opened Seqs
  import opened RowNormalizer
  import opened Aggregation

  const Header: seq<string> := ["ROOM", "PAID", "AMOUNT", "YEAR"]

  lemma HeaderNormalized()
    ensures NormalizeHeaders(Header) == Header
  {
    assert IsUpper("ROOM") && Trimmed("ROOM");
    assert IsUpper("PAID") && Trimmed("PAID");
    assert IsUpper("AMOUNT") && Trimmed("AMOUNT");
    assert IsUpper("YEAR") && Trimmed("YEAR");
    CanonicalHeaders(Header);
  }

  lemma Amount2750()
    ensures ParseAmount("2750") == 2750.0
  {
    assert NatToString(2750) == "2750";
    AmountOfNatural(2750);
  }

  /** The two records the example sheet cleans to. */
  const Cleaned: seq<PaymentRecord> :=
    [PaymentRecord("101", "PAID", 2750.0, "1st Year"), PaymentRecord("102", "PENDING", 0.0, "2nd Year")]

  /** The summary of the cleaned example: two students, one paid 2750,
      nothing pending. */
  lemma ExampleSummary()
    ensures Summarize("JANUARY 2025", Cleaned)
      == SummaryView("JANUARY 2025", 2, 1, 1, 2750.0, 0.0, 2750.0)
  {
    var a, b := Cleaned[0], Cleaned[1];
    assert IsPaid(a) && !IsPaid(b);
    assert Cleaned == [a] + [b] && [a] == [] + [a];
    FilterSnoc(IsPaid, [], a);
    FilterSnoc(IsPaid, [a], b);
    SumSnoc([], a);
    SumSnoc([a], b);
  }

  /** The room report of the example has exactly the rooms 101 and 102. */
  lemma ExampleRooms()
    ensures KeyOrder(Cleaned, Room) == ["101", "102"]
  {
    var data := Cleaned;
    assert data[..1] == [data[0]];
    assert KeyOrder(data[..1], Room) == ["101"];
  }
}
