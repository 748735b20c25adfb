/**
  The pure pieces of the interactive loop in `main` (src/main.rs:22-58): which
  URLs are accepted, which yt-dlp format selector each quality label picks,
  and the output template handed to yt-dlp.
*/
module Frontend {
  import opened Opt

  /** Accepted URLs start with this (src/main.rs:24). */
  const WatchPrefix: string := "https://www.youtube.com/watch"

  const BestLabel: string := "Best quality"
  const MediumLabel: string := "Medium quality"
  const LowLabel: string := "Low quality"

  /** The choices the quality menu offers, in order (src/main.rs:42). */
  const Qualities: seq<string> := [BestLabel, MediumLabel, LowLabel]

  const BestFormat: string := "best"
  const MediumFormat: string := "bv*[height<=720]+ba/b"
  const LowFormat: string := "bv*[height<=480]+ba/b"

  /** What follows the save folder in yt-dlp's `-o` argument (src/main.rs:58). */
  const NameTemplate: string := "/%(title)s.%(ext)s"

  /** `str::starts_with`, compared character by character. */
  function StartsWith(s: string, prefix: string): (b: bool)
    ensures b <==> |prefix| <= |s| && s[..|prefix|] == prefix
    decreases |prefix|
  {
    if prefix == [] then true
    else if s == [] then false
    else s[0] == prefix[0] && StartsWith(s[1..], prefix[1..])
  }

  /** The URL check of the main loop; a rejected URL sends the user back to
      the prompt. */
  predicate IsAcceptedUrl(url: string) {
    StartsWith(url, WatchPrefix)
  }

  /** A string that starts with `prefix` is `prefix` followed by the rest. */
  lemma StartsWithSplits(s: string, prefix: string)
    requires StartsWith(s, prefix)
    ensures s == prefix + s[|prefix|..]
  {
    assert s == s[..|prefix|] + s[|prefix|..];
  }

  /** `prefix` followed by anything starts with `prefix`. */
  lemma ConcatStartsWith(prefix: string, rest: string)
    ensures StartsWith(prefix + rest, prefix)
  {
    assert (prefix + rest)[..|prefix|] == prefix;
  }

  /** Accepted URLs are exactly the watch prefix followed by anything. */
  lemma AcceptedUrlsAreWatchUrls(url: string, rest: string)
    ensures IsAcceptedUrl(WatchPrefix + rest)
    ensures IsAcceptedUrl(url) ==> url == WatchPrefix + url[|WatchPrefix|..]
  {
    ConcatStartsWith(WatchPrefix, rest);
    if IsAcceptedUrl(url) {
      StartsWithSplits(url, WatchPrefix);
    }
  }

  /** The format selector for a quality label (src/main.rs:45-50). Every label
      gets one of the three selectors, and anything but the medium and low
      labels gets "best". */
  function FormatFor(quality: string): (f: string)
    ensures f == BestFormat || f == MediumFormat || f == LowFormat
    ensures f == BestFormat <==> quality != MediumLabel && quality != LowLabel
    ensures f == MediumFormat <==> quality == MediumLabel
    ensures f == LowFormat <==> quality == LowLabel
  {
    if quality == BestLabel then BestFormat
    else if quality == MediumLabel then MediumFormat
    else if quality == LowLabel then LowFormat
    else BestFormat
  }

  /** The three menu choices pick three different selectors, so the choice the
      user makes is the one yt-dlp receives. */
  lemma MenuChoicesDistinct(i: nat, j: nat)
    requires i < |Qualities| && j < |Qualities| && i != j
    ensures FormatFor(Qualities[i]) != FormatFor(Qualities[j])
  {
  }

  /** The `-o` argument: files go into the save folder, named by title and
      extension. */
  function OutputTemplate(savePath: string): string {
    savePath + NameTemplate
  }

  /** The folder an output template writes into, or None for a string that is
      not an output template. */
  function SaveFolderOf(template: string): (r: Option<string>)
    ensures r.Some? ==> |r.value| + |NameTemplate| == |template|
  {
    var n := |template| - |NameTemplate|;
    if n >= 0 && template[n..] == NameTemplate then Some(template[..n]) else None
  }

  /** The template keeps the save folder: reading it back gives the folder the
      user entered, so different folders give different templates. */
  lemma TemplateRoundTrip(savePath: string)
    ensures SaveFolderOf(OutputTemplate(savePath)) == Some(savePath)
  {
    var t := OutputTemplate(savePath);
    assert t[|savePath|..] == NameTemplate;
    assert t[..|savePath|] == savePath;
  }

  /** Every output template names a file inside the folder: the folder is
      followed by `/` and a name without further separators. */
  lemma {:induction false} TemplateStaysInFolder(savePath: string)
    ensures var t := OutputTemplate(savePath);
      t[..|savePath|] == savePath && t[|savePath|] == '/' &&
      forall i :: |savePath| < i < |t| ==> t[i] != '/' && t[i] != '\\'
  {
    var t := OutputTemplate(savePath);
    assert t[|savePath|..] == NameTemplate;
    forall i | |savePath| < i < |t|
      ensures t[i] != '/' && t[i] != '\\'
    {
      assert t[i] == NameTemplate[i - |savePath|];
    }
  }
}
