/**
 * UserProfile: one subscriber of the location service, its address of
 * record and the ordered list of its current bindings.
 *
 * The list holds the bindings as values (`BindingValue`): a binding's
 * expiry lives in its Contact header, and the list entry is replaced when
 * the expiry changes. No object outside the service ever holds a binding
 * of the service (it is reached through RMI, which copies), so the value
 * list observes everything the object list does.
 */
module UserProfiles {
  import opened Common
  import opened Sip
  import opened SipUtils
  import opened Bindings

  /** The index of the first binding whose canonical contact URI is `canonical`, or -1. */
  function Find(vs: seq<BindingValue>, canonical: Uri): (r: int)
    ensures -1 <= r < |vs|
    ensures r == -1 <==> forall i {:trigger Canonicalize(vs[i].contact.uri)} :: 0 <= i < |vs| ==> Canonicalize(vs[i].contact.uri) != canonical
    ensures r != -1 ==> Canonicalize(vs[r].contact.uri) == canonical
    ensures r != -1 ==> forall i {:trigger Canonicalize(vs[i].contact.uri)} :: 0 <= i < r ==> Canonicalize(vs[i].contact.uri) != canonical
  {
    if |vs| == 0 then -1
    else if Canonicalize(vs[0].contact.uri) == canonical then 0
    else
      var k := Find(vs[1..], canonical);
      if k == -1 then -1 else k + 1
  }

  /** No two bindings share a canonical contact URI. */
  predicate UniqueContacts(vs: seq<BindingValue>) {
    forall i, j {:trigger Canonicalize(vs[i].contact.uri), Canonicalize(vs[j].contact.uri)} ::
      0 <= i < j < |vs| ==> Canonicalize(vs[i].contact.uri) != Canonicalize(vs[j].contact.uri)
  }

  /** The contacts of the bindings, in order. */
  function Contacts(vs: seq<BindingValue>): (r: seq<ContactValue>)
    ensures |r| == |vs| && forall i :: 0 <= i < |vs| ==> r[i] == vs[i].contact
  {
    if |vs| == 0 then [] else [vs[0].contact] + Contacts(vs[1..])
  }

  /** `Vector.remove(Object)`: drop the first occurrence, keep everything else in order. */
  function RemoveFirst<T(==)>(s: seq<T>, x: T): (r: seq<T>)
    ensures x !in s ==> r == s
    ensures x in s ==> |r| == |s| - 1
    ensures forall y :: y in r ==> y in s
    ensures forall y :: y in s && y != x ==> y in r
  {
    if |s| == 0 then []
    else if s[0] == x then s[1..]
    else [s[0]] + RemoveFirst(s[1..], x)
  }

  /** Removing the element at a known index, when no earlier element equals it. */
  lemma {:induction false} RemoveFirstAt<T>(s: seq<T>, i: nat)
    requires i < |s| && forall j :: 0 <= j < i ==> s[j] != s[i]
    ensures RemoveFirst(s, s[i]) == s[..i] + s[i + 1..]
  {
    if i > 0 {
      RemoveFirstAt(s[1..], i - 1);
      assert s[1..][..i - 1] == s[1..i];
      assert s[1..][i..] == s[i + 1..];
    }
  }

  predicate NoDuplicates<T(==)>(s: seq<T>) {
    forall i, j :: 0 <= i < j < |s| ==> s[i] != s[j]
  }

  class UserProfile {
    /** Set once, by the constructor. */
    const addressOfRecord: Uri
    var bindings: seq<BindingValue>

    /** An address of record is a SIP URI. */
    predicate Valid() {
      addressOfRecord.SipUri?
    }

    /** A new profile has no bindings. */
    constructor (addressOfRecord: Uri)
      requires addressOfRecord.SipUri?
      ensures Valid() && this.addressOfRecord == addressOfRecord && bindings == []
    {
      this.addressOfRecord := addressOfRecord;
      bindings := [];
    }

    /** `getLogin`: the user part of the address of record (null when it has none). */
    function GetLogin(): (r: Option<string>)
      requires Valid()
      ensures r == addressOfRecord.user
    {
      addressOfRecord.user
    }

    /** `getPassword`: the password of the address of record, or null when none was provisioned. */
    function GetPassword(): (r: Option<string>)
      requires Valid()
      ensures r == addressOfRecord.password
    {
      addressOfRecord.password
    }

    /**
     * `getBinding`: the first binding whose canonical contact URI equals the
     * canonical URI of `contact`; null when there is none.
     */
    method GetBinding(contact: Uri) returns (b: Option<BindingValue>)
      ensures b.None? <==> Find(bindings, Canonicalize(contact)) == -1
      ensures b.Some? ==> b.value == bindings[Find(bindings, Canonicalize(contact))]
    {
      var uri1 := Canonicalize(contact);
      for i := 0 to |bindings|
        invariant forall j :: 0 <= j < i ==> Canonicalize(bindings[j].contact.uri) != uri1
      {
        var binding := bindings[i];
        var uri2 := Canonicalize(binding.contact.uri);
        if uri1 == uri2 {
          return Some(binding);
        }
      }
      return None;
    }

    /** `getContactHeaders`: the Contact headers of the bindings, in order. */
    method GetContactHeaders() returns (contacts: seq<ContactValue>)
      ensures contacts == Contacts(bindings)
    {
      contacts := [];
      for i := 0 to |bindings|
        invariant |contacts| == i
        invariant forall j :: 0 <= j < i ==> contacts[j] == bindings[j].contact
      {
        contacts := contacts + [bindings[i].contact];
      }
    }

    /** `addBinding`: append, unless that binding is already in the list. */
    method AddBinding(binding: BindingValue)
      modifies this`bindings
      ensures bindings == if binding in old(bindings) then old(bindings) else old(bindings) + [binding]
    {
      if binding !in bindings {
        bindings := bindings + [binding];
      }
    }

    /** `removeBinding`: drop that binding (its first occurrence); the others keep their order. */
    method RemoveBinding(binding: BindingValue)
      modifies this`bindings
      ensures bindings == RemoveFirst(old(bindings), binding)
    {
      var i := 0;
      while i < |bindings|
        invariant 0 <= i <= |bindings|
        invariant binding !in bindings[..i]
      {
        if bindings[i] == binding {
          RemoveFirstAt(bindings, i);
          bindings := bindings[..i] + bindings[i + 1..];
          return;
        }
        assert bindings[..i + 1] == bindings[..i] + [bindings[i]];
        i := i + 1;
      }
      assert bindings[..i] == bindings;
    }

    /** `removeAllBindings`. */
    method RemoveAllBindings()
      modifies this`bindings
      ensures bindings == []
    {
      bindings := [];
    }
  }

  /** Bindings of distinct canonical contacts are distinct bindings. */
  lemma UniqueHasNoDuplicates(vs: seq<BindingValue>)
    requires UniqueContacts(vs)
    ensures NoDuplicates(vs)
  {
    forall i, j | 0 <= i < j < |vs|
      ensures vs[i] != vs[j]
    {
      assert Canonicalize(vs[i].contact.uri) != Canonicalize(vs[j].contact.uri);
    }
  }

  /** Removal keeps a duplicate-free list duplicate-free and takes out exactly that element. */
  lemma {:induction false} RemoveFirstNoDuplicates<T>(s: seq<T>, x: T)
    requires NoDuplicates(s)
    ensures NoDuplicates(RemoveFirst(s, x)) && x !in RemoveFirst(s, x)
  {
    if |s| > 0 && s[0] != x {
      assert forall i, j :: 0 <= i < j < |s[1..]| ==> s[1..][i] != s[1..][j];
      RemoveFirstNoDuplicates(s[1..], x);
      var rest := RemoveFirst(s[1..], x);
      assert s[0] !in s[1..];
      assert s[0] !in rest;
      assert RemoveFirst(s, x) == [s[0]] + rest;
      forall i, j | 0 <= i < j < |[s[0]] + rest|
        ensures ([s[0]] + rest)[i] != ([s[0]] + rest)[j]
      {
        if i == 0 {
          assert ([s[0]] + rest)[j] == rest[j - 1];
        } else {
          assert ([s[0]] + rest)[i] == rest[i - 1] && ([s[0]] + rest)[j] == rest[j - 1];
        }
      }
    } else if |s| > 0 {
      assert forall i :: 0 <= i < |s| - 1 ==> s[1..][i] == s[i + 1];
    }
  }
}
