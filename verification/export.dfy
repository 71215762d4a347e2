/** The name of the CSV file a script writes, as three of the scripts build it. */
module Export {
  import opened Text

  /** `string.ascii_lowercase + string.digits`, the characters of the random part. */
  const SuffixAlphabet := "abcdefghijklmnopqrstuvwxyz0123456789"

  /**
   * `f'product_list_{current_date}_{random_string}.csv'`; the date and the six
   * random characters are supplied by the caller.
   */
  function CsvFileName(date: string, suffix: string): (name: string)
    requires |suffix| == 6 && forall i | 0 <= i < 6 :: suffix[i] in SuffixAlphabet
    ensures StartsWith(name, "product_list_" + date + "_")
    ensures |name| == |date| + 24
    ensures name[|name| - 10..|name| - 4] == suffix && name[|name| - 4..] == ".csv"
  {
    var name := "product_list_" + date + "_" + suffix + ".csv";
    assert name[..|"product_list_" + date + "_"|] == "product_list_" + date + "_";
    assert name[|name| - 10..|name| - 4] == suffix;
    assert name[|name| - 4..] == ".csv";
    name
  }

  /** Two runs on the same day write the same file only when they drew the same six characters. */
  lemma CsvFileNameDistinct(date: string, s1: string, s2: string)
    requires |s1| == 6 && forall i | 0 <= i < 6 :: s1[i] in SuffixAlphabet
    requires |s2| == 6 && forall i | 0 <= i < 6 :: s2[i] in SuffixAlphabet
    ensures CsvFileName(date, s1) == CsvFileName(date, s2) <==> s1 == s2
  {
    var n := |"product_list_" + date + "_"|;
    if CsvFileName(date, s1) == CsvFileName(date, s2) {
      assert s1 == CsvFileName(date, s1)[n..n + 6];
      assert s2 == CsvFileName(date, s2)[n..n + 6];
    }
  }
}
