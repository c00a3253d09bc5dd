/** Callback URLs are `{baseUrl}/{callbackId}`; inbound requests recover the id from the tail. */
module Callbacks {

  function CallbackUrl(baseUrl: string, callbackId: string): string {
    baseUrl + "/" + callbackId
  }

  /** Index of the last `/` in `s`, or -1 when there is none (`String.lastIndexOf`). */
  function LastSlash(s: string): (i: int)
    ensures -1 <= i < |s|
    ensures i >= 0 ==> s[i] == '/'
    ensures forall j :: i < j < |s| ==> s[j] != '/'
  {
    if |s| == 0 then -1
    else if s[|s| - 1] == '/' then |s| - 1
    else LastSlash(s[..|s| - 1])
  }

  /** The id of an inbound request: the text after the last `/` of its URL (all of it if none). */
  function IdOf(url: string): (id: string)
    ensures '/' !in id
    ensures |id| <= |url| && url[|url| - |id|..] == id
    ensures |id| < |url| ==> url[|url| - |id| - 1] == '/'
  {
    url[LastSlash(url) + 1..]
  }

  /** The id put into a callback URL is the id read back from it, when it has no `/`. */
  lemma IdOfCallbackUrl(baseUrl: string, callbackId: string)
    requires '/' !in callbackId
    ensures IdOf(CallbackUrl(baseUrl, callbackId)) == callbackId
  {
    var url := CallbackUrl(baseUrl, callbackId);
    var i := LastSlash(url);
    assert url[|baseUrl|] == '/';
    assert i == |baseUrl|;
    assert url[i + 1..] == callbackId;
  }
}
