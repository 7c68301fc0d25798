/**
 * The window classifier: the tab-title helper `extract_website_or_tab`,
 * `categorize_window`, and the three-way outcome of `get_active_url`.
 * Python's substring test `a in b` is `Contains(b, a)` here.
 */
module Classifier {
  import opened Wrappers
  import opened Records
  import UrlRelay

  const Sep: string := " - "
  const UnknownTab: string := "Unknown Tab"
  const NotApplicable: string := "N/A"
  const UrlNotAvailable: string := "URL not available"
  const FetchError: string := "Error fetching URL"

  /** `sub` sits in `s` starting at index `i`. */
  predicate OccursAt(s: string, sub: string, i: int)
  {
    0 <= i && i + |sub| <= |s| && s[i..i + |sub|] == sub
  }

  /** Python's `sub in s`. The empty string is in every string. */
  predicate Contains(s: string, sub: string)
  {
    exists i :: 0 <= i <= |s| - |sub| && OccursAt(s, sub, i)
  }

  /** The highest index at or below `j` where `sub` occurs in `s`, scanning downwards. */
  function LastOccurrenceFrom(s: string, sub: string, j: int): (r: Option<nat>)
    requires j <= |s| - |sub|
    ensures r.Some? ==> r.value <= j && OccursAt(s, sub, r.value)
    ensures r.Some? ==> forall k :: r.value < k <= j ==> !OccursAt(s, sub, k)
    ensures r.None? ==> forall k :: 0 <= k <= j ==> !OccursAt(s, sub, k)
    decreases j + 1
  {
    if j < 0 then None
    else if s[j..j + |sub|] == sub then Some(j)
    else LastOccurrenceFrom(s, sub, j - 1)
  }

  /** The start of the last occurrence of `sub` in `s`, if any. */
  function LastOccurrence(s: string, sub: string): (r: Option<nat>)
    ensures r.None? <==> !Contains(s, sub)
    ensures r.Some? ==> OccursAt(s, sub, r.value)
    ensures r.Some? ==> forall k :: r.value < k ==> !OccursAt(s, sub, k)
  {
    LastOccurrenceFrom(s, sub, |s| - |sub|)
  }

  /**
   * `s.rsplit(sep, 1)`: one part when `sep` does not occur, otherwise the text
   * before and after its last occurrence. Python refuses an empty separator.
   */
  function RSplitOnce(s: string, sep: string): (parts: seq<string>)
    requires sep != ""
    ensures |parts| == 1 <==> !Contains(s, sep)
    ensures |parts| == 1 ==> parts[0] == s
    ensures |parts| == 2 ==> parts[0] + sep + parts[1] == s && !Contains(parts[1], sep)
    ensures |parts| == 2 ==> LastOccurrence(s, sep) == Some(|parts[0]|)
    ensures |parts| == 1 || |parts| == 2
  {
    match LastOccurrence(s, sep)
    case None => [s]
    case Some(i) =>
      var suffix := s[i + |sep|..];
      assert !Contains(suffix, sep) by {
        forall k | 0 <= k <= |suffix| - |sep| ensures !OccursAt(suffix, sep, k) {
          assert suffix[k..k + |sep|] == s[i + |sep| + k..i + |sep| + k + |sep|];
          assert !OccursAt(s, sep, i + |sep| + k);
        }
      }
      assert s[..i] + sep + suffix == s by {
        assert s[i..i + |sep|] == sep;
        assert s == s[..i] + s[i..i + |sep|] + s[i + |sep|..];
      }
      [s[..i], suffix]
  }

  /**
   * `extract_website_or_tab`: the tab title in front of the last " - " when the
   * text after it names the browser, otherwise "Unknown Tab".
   */
  function ExtractWebsiteOrTab(title: string, browser: string): (r: string)
    ensures !Contains(title, Sep) ==> r == UnknownTab
  {
    if Contains(title, Sep) then
      var parts := RSplitOnce(title, Sep);
      if Contains(parts[|parts| - 1], browser) then parts[0] else UnknownTab
    else
      UnknownTab
  }

  /**
   * When " - " occurs in `title` and `i` is its last occurrence, the helper
   * returns the text before `i` exactly when the browser name is in the text
   * after the separator, and "Unknown Tab" otherwise.
   */
  lemma ExtractSplitsAtLastSeparator(title: string, browser: string, i: nat)
    requires OccursAt(title, Sep, i)
    requires forall k :: i < k ==> !OccursAt(title, Sep, k)
    ensures Contains(title[i + |Sep|..], browser) ==> ExtractWebsiteOrTab(title, browser) == title[..i]
    ensures !Contains(title[i + |Sep|..], browser) ==> ExtractWebsiteOrTab(title, browser) == UnknownTab
  {
  }

  /** A category and detail pair, the result of `categorize_window`. */
  datatype Classification = Classification(category: Category, detail: string)

  /**
   * `categorize_window` as written: its guard is `"Edge" or ("Brave" in title)`,
   * whose left operand is a non-empty literal and hence always truthy, so the
   * Browser branch is taken for every title and the "Application" branch is dead.
   * `urlDetail` stands for the value `get_active_url()` returns during the call.
   */
  function CategorizeWindow(title: string, urlDetail: string): (c: Classification)
    ensures c.category == Browser && c.detail == urlDetail
    ensures c != Classification(Application, NotApplicable)
  {
    if Truthy("Edge") || Contains(title, "Brave") then
      Classification(Browser, urlDetail)
    else
      Classification(Application, NotApplicable)
  }

  /** What `get_active_url` receives from the relay: no answer, or a status and a body. */
  datatype RelayReply = Unreachable | Reply(status: int, text: string)

  /**
   * `get_active_url`: the host part of the relayed URL on status 200, "URL not
   * available" on any other status, "Error fetching URL" when the request fails.
   * `netloc` stands for `urlparse(url).netloc`.
   */
  function ActiveUrlDetail(reply: RelayReply, netloc: string -> string): (d: string)
    ensures reply.Unreachable? ==> d == FetchError
    ensures reply.Reply? && reply.status == 200 ==> d == netloc(reply.text)
    ensures reply.Reply? && reply.status != 200 ==> d == UrlNotAvailable
  {
    match reply
    case Unreachable => FetchError
    case Reply(status, text) => if status == 200 then netloc(text) else UrlNotAvailable
  }

  /**
   * The relay always answers `get_url` with status 200, so a reachable relay
   * never produces "URL not available": the detail is the host part of the
   * relayed text, which is the stored URL or the relay's own sentinel.
   */
  method FetchDetail(relay: UrlRelay.Relay, netloc: string -> string) returns (d: string)
    ensures d == netloc(UrlRelay.Served(relay.currentUrl))
  {
    var text, status := relay.GetUrl();
    d := ActiveUrlDetail(Reply(status, text), netloc);
  }
}
