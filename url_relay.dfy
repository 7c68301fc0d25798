/**
 * The URL relay: a single-slot register behind two HTTP handlers.
 * `set_url` overwrites the slot with the `url` field of the posted JSON body
 * (or with Python `None` when the field is absent); `get_url` answers with the
 * slot, or with a sentinel when the slot is falsy (`None` or the empty string).
 */
module UrlRelay {
  import opened Wrappers

  const NoUrl: string := "No URL available"
  const Updated: string := "URL Updated"
  const Ok: int := 200

  /** `request.json.get('url')`: the `url` field, or `None` when the key is absent. */
  function UrlField(body: map<string, string>): (slot: Option<string>)
    ensures slot.Some? <==> "url" in body
    ensures slot.Some? ==> slot.value == body["url"]
  {
    if "url" in body then Some(body["url"]) else None
  }

  /** `current_url or "No URL available"`: the text `get_url` answers with. */
  function Served(slot: Option<string>): (text: string)
    ensures text != ""
    ensures TruthyOption(slot) ==> text == slot.value
    ensures !TruthyOption(slot) ==> text == NoUrl
  {
    if TruthyOption(slot) then slot.value else NoUrl
  }

  class Relay {
    /** The module-level `current_url`. */
    var currentUrl: Option<string>

    /** The process starts with `current_url = None`. */
    constructor ()
      ensures currentUrl == None
    {
      currentUrl := None;
    }

    /** The POST handler: overwrite the slot unconditionally and acknowledge. */
    method SetUrl(body: map<string, string>) returns (text: string, status: int)
      modifies this
      ensures currentUrl == UrlField(body)
      ensures text == Updated && status == Ok
    {
      currentUrl := UrlField(body);
      text, status := Updated, Ok;
    }

    /** The GET handler: the slot, or the sentinel when the slot is falsy; always status 200. */
    method GetUrl() returns (text: string, status: int)
      ensures text != ""
      ensures TruthyOption(currentUrl) ==> text == currentUrl.value
      ensures !TruthyOption(currentUrl) ==> text == NoUrl
      ensures status == Ok
    {
      if currentUrl.Some? && currentUrl.value != "" {
        text := currentUrl.value;
      } else {
        text := NoUrl;
      }
      status := Ok;
    }
  }

  /** A fresh relay answers with the sentinel before any `set_url`. */
  method GetBeforeSet() returns (text: string)
    ensures text == NoUrl
  {
    var relay := new Relay();
    var status;
    text, status := relay.GetUrl();
  }

  /**
   * A fresh relay receives the posted bodies in order, then is read once.
   * Every write overwrites the slot, so only the last body decides the answer;
   * a last body without `url`, or with an empty one, yields the sentinel.
   */
  method Replay(bodies: seq<map<string, string>>) returns (text: string)
    ensures bodies == [] ==> text == NoUrl
    ensures bodies != [] ==> text == Served(UrlField(bodies[|bodies| - 1]))
    ensures bodies != [] && "url" in bodies[|bodies| - 1] && bodies[|bodies| - 1]["url"] != "" ==>
              text == bodies[|bodies| - 1]["url"]
  {
    var relay := new Relay();
    var i := 0;
    while i < |bodies|
      invariant 0 <= i <= |bodies|
      invariant i == 0 ==> relay.currentUrl == None
      invariant i > 0 ==> relay.currentUrl == UrlField(bodies[i - 1])
    {
      var ack, code := relay.SetUrl(bodies[i]);
      i := i + 1;
    }
    var status;
    text, status := relay.GetUrl();
  }
}
