/**
 * `GOVDataContext`: the host, version tag, API key and shared secret a
 * request is made with. The tag (the public field `apiURL`) starts as
 * "V1" and becomes "V2" whenever the host is checked and found to be the
 * quarry host. Because the field is public, a caller may also set it to
 * anything; the model allows any tag.
 */
module Context {
  import opened Wrappers

  const LinkDolApi: string := "http://api.dol.gov"
  const LinkDolQuarry: string := "https://quarry.dol.gov"
  const LinkUsaGov: string := "http://business.usa.gov"

  const DefaultTag: string := "V1"
  const QuarryTag: string := "V2"

  /** The host `isValid` recognises: one of the three fixed hosts, else `null`. */
  function Recognised(host: string): (valid: Option<string>)
    ensures valid.Some? <==> host in {LinkDolApi, LinkUsaGov, LinkDolQuarry}
    ensures valid.Some? ==> valid.value == host
  {
    if host == LinkDolApi then Some(host)
    else if host == LinkUsaGov then Some(host)
    else if host == LinkDolQuarry then Some(host)
    else None
  }

  /** The tag after `updateContext` or `isValid` ran on `host`. */
  function Retagged(host: string, tag: string): (t: string)
    ensures t == QuarryTag || t == tag
    ensures t != tag <==> host == LinkDolQuarry && tag != QuarryTag
  {
    if host == LinkDolQuarry then QuarryTag else tag
  }

  /** Checking the host twice leaves the tag as checking it once does. */
  lemma RetaggedIdempotent(host: string, tag: string)
    ensures Retagged(host, Retagged(host, tag)) == Retagged(host, tag)
  {
  }

  class GovDataContext {
    var apiHost: string
    var apiURL: string
    var apiKey: string
    var sharedSecret: string

    /** Stores the three values and derives the tag from the host. */
    constructor (host: string, key: string, secret: string)
      ensures apiHost == host && apiKey == key && sharedSecret == secret
      ensures apiURL == if host == LinkDolQuarry then QuarryTag else DefaultTag
    {
      apiHost := host;
      apiURL := DefaultTag;
      apiKey := key;
      sharedSecret := secret;
      new;
      UpdateContext();
    }

    /** Sets the tag to "V2" on the quarry host; leaves it alone on any other. */
    method UpdateContext()
      modifies this`apiURL
      ensures apiURL == Retagged(apiHost, old(apiURL))
    {
      if LinkDolQuarry == apiHost {
        apiURL := QuarryTag;
      }
    }

    /**
     * Returns the host when it is one of the three fixed hosts and `null`
     * otherwise; on the quarry host it also sets the tag to "V2". Nothing
     * else changes, so a second call returns the same value and leaves
     * the same state.
     */
    method IsValid() returns (valid: Option<string>)
      modifies this`apiURL
      ensures valid == Recognised(apiHost)
      ensures apiURL == Retagged(apiHost, old(apiURL))
    {
      if apiHost == LinkDolApi {
        valid := Some(apiHost);
      } else if apiHost == LinkUsaGov {
        valid := Some(apiHost);
      } else if apiHost == LinkDolQuarry {
        valid := Some(apiHost);
        apiURL := QuarryTag;
      } else {
        valid := None;
      }
    }

    /** Despite its name, returns the version tag, not the host. */
    function GetApiHost(): (tag: string)
      reads this
      ensures tag == apiURL
    {
      apiURL
    }
  }

  /** What the constructor, `isValid` and `getApiHost` promise a caller, checked on a fresh context. */
  method ContextClient(host: string, key: string, secret: string)
  {
    var c := new GovDataContext(host, key, secret);
    assert c.GetApiHost() == (if host == LinkDolQuarry then "V2" else "V1");
    var v1 := c.IsValid();
    var tag1 := c.GetApiHost();
    var v2 := c.IsValid();
    assert v1 == v2 && c.GetApiHost() == tag1;
    assert c.apiHost == host && c.apiKey == key && c.sharedSecret == secret;
    assert host == LinkDolQuarry ==> v2 == Some(host) && tag1 == "V2";
  }
}
