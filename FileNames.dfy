/** How both report formats derive their listing and results file names
    from a root: the root (or the default root when none is given) is cut
    to fit a 1025-character buffer together with its ending, and the
    ending is appended. */
module FileNames {
  import opened TestDb
  import opened CStrings

  const MaxFilenameLength: nat := 1025
  const DefaultFileRoot: string := "CUnitAutomated"
  const ListEnding: string := "-Listing.xml"
  const ResultEnding: string := "-Results.xml"

  /** How many characters of the root survive for a given ending. */
  function RootBudget(ending: string): nat
    requires |ending| < MaxFilenameLength
  {
    MaxFilenameLength - |ending| - 1
  }

  function RootOrDefault(root: Option<string>): string {
    match root
    case None => DefaultFileRoot
    case Some(r) => r
  }

  /** The file name held in a buffer after set_output_filename. */
  function DerivedName(root: Option<string>, ending: string): (name: string)
    requires |ending| < MaxFilenameLength
    ensures |name| <= MaxFilenameLength - 1
  {
    var r := RootOrDefault(root);
    r[..Min(|r|, RootBudget(ending))] + ending
  }

  /** A root that fits is kept whole; a longer one is cut to the budget,
      which for both endings is 1012 characters. */
  lemma DerivedNameShape(root: Option<string>, ending: string)
    requires |ending| == 12
    ensures RootBudget(ending) == 1012
    ensures |RootOrDefault(root)| <= 1012 ==> DerivedName(root, ending) == RootOrDefault(root) + ending
    ensures |RootOrDefault(root)| > 1012 ==>
      DerivedName(root, ending) == RootOrDefault(root)[..1012] + ending && |DerivedName(root, ending)| == 1024
  {
    assert RootOrDefault(root)[..|RootOrDefault(root)|] == RootOrDefault(root);
  }

  /** No root gives the default names; an empty root is not replaced by
      the default and gives the bare endings. */
  lemma DerivedNameDefaults()
    ensures DerivedName(None, ListEnding) == "CUnitAutomated-Listing.xml"
    ensures DerivedName(None, ResultEnding) == "CUnitAutomated-Results.xml"
    ensures DerivedName(Some(""), ListEnding) == "-Listing.xml"
    ensures DerivedName(Some(""), ResultEnding) == "-Results.xml"
  {
  }

  /** Fills one name buffer in place: strncpy of the root up to its budget,
      a NUL at the budget, then strcat of the ending. */
  method FillName(buf: array<char>, root: Option<string>, ending: string)
    requires buf.Length == MaxFilenameLength
    requires |ending| < MaxFilenameLength && NUL !in ending
    requires root.Some? ==> NUL !in root.value
    modifies buf
    ensures NUL in buf[..]
    ensures CStr(buf[..]) == DerivedName(root, ending)
  {
    var r := RootOrDefault(root);
    var n := RootBudget(ending);
    StrNCopy(buf, r, n);
    buf[n] := NUL;
    var m := Min(|r|, n);
    assert buf[..m] == r[..m];
    assert NUL !in buf[..m] by {
      forall i | 0 <= i < m ensures buf[..m][i] != NUL {
        assert buf[..m][i] == r[i];
      }
    }
    CStrAt(buf[..], m);
    StrCat(buf, ending);
  }
}
