/**
 * Addresses on the webhook-style message endpoint: `/webhooks/{app}/{token}` creates a
 * follow-up message, `/webhooks/{app}/{token}/messages/{handle}` addresses one message,
 * where the handle is `@original` or the id of a follow-up message.
 */
module Webhook {
  import opened Wrappers

  /** The handle of the message sent as the interaction's immediate response. */
  const Original: string := "@original"

  const WebhooksPrefix: string := "/webhooks/"
  const MessagesInfix: string := "/messages/"

  /** The URL that creates a follow-up message: the webhook of the application and token. */
  function FollowUrl(applicationId: string, token: string): (r: string)
    ensures |r| == |WebhooksPrefix| + |applicationId| + 1 + |token|
    ensures r[..|WebhooksPrefix|] == WebhooksPrefix
    ensures r[|r| - |token|..] == token
  {
    WebhooksPrefix + applicationId + "/" + token
  }

  /** The URL of one message of the webhook: it extends the follow-up URL and ends in the handle. */
  function MessageUrl(applicationId: string, token: string, handle: string): (r: string)
    ensures |r| == |FollowUrl(applicationId, token)| + |MessagesInfix| + |handle|
    ensures r[..|FollowUrl(applicationId, token)|] == FollowUrl(applicationId, token)
    ensures r[|r| - |handle|..] == handle
  {
    FollowUrl(applicationId, token) + MessagesInfix + handle
  }

  /** Application ids are snowflakes and tokens are opaque words: neither holds a '/'. */
  predicate PathSegment(s: string) {
    '/' !in s
  }

  /** The position of the first `c` in `s`, if any. */
  function IndexOf(s: string, c: char): (r: Option<nat>)
    ensures r.Some? ==> r.value < |s| && s[r.value] == c && c !in s[..r.value]
    ensures r.None? <==> c !in s
  {
    if s == [] then None
    else if s[0] == c then Some(0)
    else match IndexOf(s[1..], c)
      case None => None
      case Some(i) => Some(i + 1)
  }

  /** `s` without the prefix `p`, if it starts with `p`. */
  function StripPrefix(p: string, s: string): Option<string> {
    if |p| <= |s| && s[..|p|] == p then Some(s[|p|..]) else None
  }

  /** `s` split around its first `c`, if it holds one. */
  function SplitAt(s: string, c: char): Option<(string, string)> {
    match IndexOf(s, c)
    case None => None
    case Some(i) => Some((s[..i], s[i + 1..]))
  }

  datatype MessageAddress = MessageAddress(applicationId: string, token: string, handle: string)

  /** Reads an application id, a token and a handle back out of a message URL. */
  function ParseMessageUrl(url: string): Option<MessageAddress> {
    match StripPrefix(WebhooksPrefix, url)
    case None => None
    case Some(rest) =>
      match SplitAt(rest, '/')
      case None => None
      case Some((applicationId, afterApp)) =>
        match SplitAt(afterApp, '/')
        case None => None
        case Some((token, tail)) =>
          match StripPrefix("messages/", tail)
          case None => None
          case Some(handle) => Some(MessageAddress(applicationId, token, handle))
  }

  lemma StripPrefixOf(p: string, s: string)
    ensures StripPrefix(p, p + s) == Some(s)
  {
  }

  lemma SplitAtFirst(a: string, b: string)
    requires PathSegment(a)
    ensures SplitAt(a + "/" + b, '/') == Some((a, b))
  {
    var s := a + "/" + b;
    assert s[|a|] == '/';
    assert s[..|a|] == a;
    assert s[|a| + 1..] == b;
  }

  /** Parsing inverts URL formation whenever the application id and the token are path segments. */
  lemma ParseMessageUrlRoundTrip(applicationId: string, token: string, handle: string)
    requires PathSegment(applicationId) && PathSegment(token)
    ensures ParseMessageUrl(MessageUrl(applicationId, token, handle)) == Some(MessageAddress(applicationId, token, handle))
  {
    var tail := "messages/" + handle;
    var afterApp := token + "/" + tail;
    var rest := applicationId + "/" + afterApp;
    assert MessagesInfix == "/" + "messages/";
    calc {
      MessageUrl(applicationId, token, handle);
      WebhooksPrefix + applicationId + "/" + token + ("/" + "messages/") + handle;
      { assert WebhooksPrefix + applicationId + "/" + token + ("/" + "messages/") + handle
          == WebhooksPrefix + (applicationId + "/" + (token + "/" + ("messages/" + handle))); }
      WebhooksPrefix + rest;
    }
    StripPrefixOf(WebhooksPrefix, rest);
    SplitAtFirst(applicationId, afterApp);
    SplitAtFirst(token, tail);
    StripPrefixOf("messages/", handle);
  }

  /** Under one application and token, distinct handles address distinct messages. */
  lemma MessageUrlInjective(applicationId: string, token: string, h1: string, h2: string)
    ensures MessageUrl(applicationId, token, h1) == MessageUrl(applicationId, token, h2) <==> h1 == h2
  {
    var p := FollowUrl(applicationId, token) + MessagesInfix;
    if MessageUrl(applicationId, token, h1) == MessageUrl(applicationId, token, h2) {
      assert h1 == (p + h1)[|p|..];
      assert h2 == (p + h2)[|p|..];
    }
  }
}
