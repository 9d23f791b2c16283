/** Provider ids: `cloudstack://<zone>/<instance id>`, read back from the last slash. */
module ProviderId {
  import opened Lists

  /** strings.Split at slashes: always at least one part. */
  function Split(s: string): (parts: seq<string>)
    ensures parts != []
  {
    if s == "" then [""]
    else
      var before := Split(s[..|s|-1]);
      if s[|s|-1] == '/' then before + [""]
      else before[..|before|-1] + [before[|before|-1] + [s[|s|-1]]]
  }

  /** FormatProviderID. */
  function Format(zone: string, id: string): string { "cloudstack://" + zone + "/" + id }

  /** ParseProviderID: None stands for the error. */
  function Parse(providerId: string): Option<string> {
    if providerId == "" then None
    else
      var parts := Split(providerId);
      Some(parts[|parts|-1])
  }

  function Join(parts: seq<string>): string
    requires parts != []
  {
    if |parts| == 1 then parts[0] else Join(parts[..|parts|-1]) + "/" + parts[|parts|-1]
  }

  /** One character more: a slash opens a new part, anything else extends the last one. */
  lemma SplitSnoc(s: string, c: char)
    ensures var parts := Split(s);
            Split(s + [c]) == if c == '/' then parts + [""] else parts[..|parts|-1] + [parts[|parts|-1] + [c]]
  {
    assert (s + [c])[..|s|] == s;
  }

  /** Splitting loses nothing and leaves no slash in a part. */
  lemma {:induction false} SplitJoins(s: string)
    ensures Join(Split(s)) == s
    ensures forall i | 0 <= i < |Split(s)| :: '/' !in Split(s)[i]
  {
    if s != "" {
      var n, before := |s| - 1, Split(s[..|s|-1]);
      SplitJoins(s[..n]);
      assert s == s[..n] + [s[n]];
      var m := |before| - 1;
      if s[n] == '/' {
        assert (before + [""])[..|before|] == before;
      } else {
        var after := before[..m] + [before[m] + [s[n]]];
        assert after[..m] == before[..m];
      }
    }
  }

  lemma {:induction false} SplitSlashFree(s: string, tail: string)
    requires '/' !in tail
    ensures Split(s + "/" + tail) == Split(s) + [tail]
  {
    if tail == "" {
      SplitSnoc(s, '/');
      assert s + "/" + tail == s + ['/'];
    } else {
      var n := |tail| - 1;
      var before, c := tail[..n], tail[n];
      assert tail == before + [c];
      SplitSlashFree(s, before);
      SplitSnoc(s + "/" + before, c);
      assert s + "/" + tail == (s + "/" + before) + [c];
    }
  }

  /** A successful parse never contains a slash. */
  lemma ParseIsSlashFree(providerId: string)
    ensures Parse(providerId).Some? <==> providerId != ""
    ensures Parse(providerId).Some? ==> '/' !in Parse(providerId).value
  {
    SplitJoins(providerId);
  }

  /** Parsing a formatted id gives the id back, in every zone, exactly when the id has no slash. */
  lemma RoundTripIff(zone: string, id: string)
    ensures Parse(Format(zone, id)) == Some(id) <==> '/' !in id
  {
    if '/' in id {
      ParseIsSlashFree(Format(zone, id));
    } else {
      SplitSlashFree("cloudstack://" + zone, id);
    }
  }
}
