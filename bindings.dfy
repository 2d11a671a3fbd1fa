/**
 * Binding: the association of a subscriber's key with one Contact header.
 * The binding's remaining lifetime is not a field of its own: it is the
 * `expires` parameter of the Contact header object it holds, so whoever
 * shares that header object sees every change of the expiry.
 */
module Bindings {
  import opened Common
  import opened Sip

  /** A Contact header object: its address is fixed, its `expires` parameter (NO_EXPIRES when absent) changes. */
  class ContactHeader {
    const uri: Uri
    var expires: int

    constructor (uri: Uri, expires: int)
      ensures this.uri == uri && this.expires == expires
    {
      this.uri := uri;
      this.expires := expires;
    }

    /** A header object made from a header value, as a value crossing the remote interface arrives. */
    constructor FromValue(c: ContactValue)
      ensures uri == c.uri && expires == c.expires
    {
      uri := c.uri;
      expires := c.expires;
    }

    function Value(): (c: ContactValue)
      reads this
      ensures !c.wildcard && c.uri == uri && c.expires == expires
    {
      ContactValue(false, uri, expires)
    }

    /** `setExpires(int)`. */
    method SetExpires(e: int)
      requires IsInt32(e)
      modifies this`expires
      ensures expires == e
    {
      expires := e;
    }
  }

  /** The header's text as the stack prints it: name, address, the `expires` parameter, line end. */
  function HeaderText(uri: Uri, expires: int): string {
    "Contact: <" + UriString(uri) + ">" + (if expires == NO_EXPIRES then "" else ";expires=" + IntToString(expires)) + "\r\n"
  }

  /** What a binding records, as a value: its key, its Contact header, Call-ID and CSeq. */
  datatype BindingValue = BindingValue(key: string, contact: ContactValue, callId: string, cseq: int)

  class Binding {
    var key: string
    var contactHeader: ContactHeader
    var callId: string
    var cseq: int

    /** The constructor goes through the setters; the expiry lands in the header the binding now holds. */
    constructor (key: string, contactHeader: ContactHeader, callId: string, cseq: int, expiresTime: int)
      modifies contactHeader
      ensures this.key == key && this.contactHeader == contactHeader
      ensures this.callId == callId && this.cseq == cseq
      ensures contactHeader.expires == ToInt32(expiresTime)
    {
      this.key := key;
      this.contactHeader := contactHeader;
      this.callId := callId;
      this.cseq := cseq;
      new;
      SetExpiresTime(expiresTime);
    }

    method SetKey(key: string)
      modifies this`key
      ensures this.key == key
    {
      this.key := key;
    }

    method SetContactHeader(contactHeader: ContactHeader)
      modifies this`contactHeader
      ensures this.contactHeader == contactHeader
    {
      this.contactHeader := contactHeader;
    }

    method SetCallId(callId: string)
      modifies this`callId
      ensures this.callId == callId
    {
      this.callId := callId;
    }

    method SetCseq(cseq: int)
      modifies this`cseq
      ensures this.cseq == cseq
    {
      this.cseq := cseq;
    }

    /** `getExpiresTime`: the header's `expires` parameter, read back. */
    function GetExpiresTime(): int
      reads this, contactHeader
    {
      contactHeader.expires
    }

    /**
     * `setExpiresTime`: `(int)` of the given `long` is written into the
     * shared header; the binding's own fields stay as they are.
     */
    method SetExpiresTime(expiresTime: int)
      modifies contactHeader`expires
      ensures contactHeader.expires == ToInt32(expiresTime)
      ensures GetExpiresTime() == ToInt32(expiresTime)
    {
      contactHeader.SetExpires(ToInt32(expiresTime));
    }

    /** The binding as a value, with the header's current expiry. */
    function Value(): (v: BindingValue)
      reads this, contactHeader
      ensures v.contact.uri == contactHeader.uri && v.contact.expires == contactHeader.expires && !v.contact.wildcard
      ensures v.key == key && v.callId == callId && v.cseq == cseq
    {
      BindingValue(key, contactHeader.Value(), callId, cseq)
    }

    /** `toString`: the header's text without the surrounding white space. */
    function ToString(): string
      reads this, contactHeader
    {
      Trim(HeaderText(contactHeader.uri, contactHeader.expires))
    }
  }

  /** Reading the expiry back gives what was written when it fits 32 bits, and it wraps otherwise. */
  method ExpiryRoundTrip(b: Binding, e: int) returns (read: int)
    modifies b.contactHeader
    ensures IsInt32(e) ==> read == e
    ensures IsInt32(read) && (read - e) % 0x1_0000_0000 == 0
  {
    b.SetExpiresTime(e);
    read := b.GetExpiresTime();
  }

  /** Two bindings holding one header object: a new expiry set through one is what the other reads. */
  method SharedHeader(a: Binding, b: Binding, e: int) returns (seen: int)
    requires a.contactHeader == b.contactHeader
    modifies a.contactHeader
    ensures seen == ToInt32(e)
  {
    a.SetExpiresTime(e);
    seen := b.GetExpiresTime();
  }
}
