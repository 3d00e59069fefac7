/**
 * The file name the report viewer gives a download:
 * `productName.replace(/\s+/g, '_')` followed by "_Report.pdf".
 */
module DownloadName {
  import opened Text

  const Suffix := "_Report.pdf"

  /** `s` without its leading whitespace: what remains after the regular
      expression's greedy `\s+` has consumed a whole run. */
  function DropSpaces(s: string): (r: string)
    ensures |r| <= |s| && r == s[|s| - |r|..]
    ensures r != [] ==> !IsSpace(r[0])
    ensures forall i :: 0 <= i < |s| - |r| ==> IsSpace(s[i])
  {
    if s != [] && IsSpace(s[0]) then DropSpaces(s[1..]) else s
  }

  /** The global replacement of `\s+` by "_": scanning left to right, each
      maximal run of whitespace becomes a single '_'; other characters are kept. */
  function ReplaceSpaceRuns(s: string): (r: string)
    ensures NoSpace(r)
    ensures |r| <= |s|
    decreases |s|
  {
    if s == [] then []
    else if IsSpace(s[0]) then ['_'] + ReplaceSpaceRuns(DropSpaces(s[1..]))
    else [s[0]] + ReplaceSpaceRuns(s[1..])
  }

  /** An independent, one-character-at-a-time reading of the same replacement:
      a whitespace character becomes '_' when it starts a run and vanishes
      when it continues one. `inRun` says the previous character was whitespace. */
  function Streamed(s: string, inRun: bool): string {
    if s == [] then []
    else if IsSpace(s[0]) then (if inRun then [] else ['_']) + Streamed(s[1..], true)
    else [s[0]] + Streamed(s[1..], false)
  }

  /** Inside a run, the streamed reading skips the rest of the run. */
  lemma {:induction false} StreamedInRun(s: string)
    ensures Streamed(s, true) == Streamed(DropSpaces(s), false)
    decreases |s|
  {
    if s != [] && IsSpace(s[0]) {
      StreamedInRun(s[1..]);
    }
  }

  /** The run-at-a-time replacement agrees with the streamed reading. */
  lemma {:induction false} ReplaceIsStreamed(s: string)
    ensures ReplaceSpaceRuns(s) == Streamed(s, false)
    decreases |s|
  {
    if s != [] {
      if IsSpace(s[0]) {
        StreamedInRun(s[1..]);
        ReplaceIsStreamed(DropSpaces(s[1..]));
      } else {
        ReplaceIsStreamed(s[1..]);
      }
    }
  }

  /** A string without whitespace is left as it is. */
  lemma {:induction false} ReplaceKeepsSpaceFree(s: string)
    requires NoSpace(s)
    ensures ReplaceSpaceRuns(s) == s
  {
    if s != [] {
      assert !IsSpace(s[0]);
      ReplaceKeepsSpaceFree(s[1..]);
    }
  }

  /** Replacing twice is replacing once. */
  lemma ReplaceIdempotent(s: string)
    ensures ReplaceSpaceRuns(ReplaceSpaceRuns(s)) == ReplaceSpaceRuns(s)
  {
    ReplaceKeepsSpaceFree(ReplaceSpaceRuns(s));
  }

  /** The download file name for a product name. */
  function FileName(productName: string): (r: string)
    ensures NoSpace(r)
    ensures |r| >= |Suffix| && r[|r| - |Suffix|..] == Suffix
    ensures r[..|r| - |Suffix|] == ReplaceSpaceRuns(productName)
  {
    ReplaceSpaceRuns(productName) + Suffix
  }

  /** A whitespace-free prefix passes through unchanged. */
  lemma {:induction false} ReplaceAfterSpaceFree(w: string, v: string)
    requires NoSpace(w)
    ensures ReplaceSpaceRuns(w + v) == w + ReplaceSpaceRuns(v)
  {
    if w == [] {
      assert w + v == v;
    } else {
      assert !IsSpace(w[0]);
      assert (w + v)[0] == w[0] && (w + v)[1..] == w[1..] + v;
      ReplaceAfterSpaceFree(w[1..], v);
      assert [w[0]] + (w[1..] + ReplaceSpaceRuns(v)) == w + ReplaceSpaceRuns(v);
    }
  }

  lemma FileNameExample()
    ensures FileName("Acme Co") == "Acme_Co_Report.pdf"
  {
    assert NoSpace("Acme") && NoSpace("Co");
    assert ReplaceSpaceRuns(" Co") == "_Co" by {
      assert " Co"[1..] == "Co" && DropSpaces("Co") == "Co";
      ReplaceKeepsSpaceFree("Co");
    }
    assert "Acme Co" == "Acme" + " Co";
    ReplaceAfterSpaceFree("Acme", " Co");
  }
}
