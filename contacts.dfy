/**
 * The emergency-contact list of the SOS view: contacts are single formatted
 * strings "<name> - <number>", checked only for emptiness and appended in
 * insertion order with no de-duplication (ContentView.swift, addEmergencyContact).
 */
module Contacts {

  /** The text placed between the name and the number in a stored contact. */
  const Separator: string := " - "

  /** The string stored for a contact: the name, the separator, then the number. */
  function ContactEntry(name: string, number: string): (r: string)
    ensures |r| == |name| + |Separator| + |number|
    ensures r[..|name|] == name
    ensures r[|name|..|name| + |Separator|] == Separator
    ensures r[|name| + |Separator|..] == number
  {
    name + Separator + number
  }

  /** The form is accepted when neither field is empty; there is no trimming. */
  predicate Accepts(name: string, number: string)
  {
    name != "" && number != ""
  }

  /** The contact list after one press of "Add Contact" with the given field contents. */
  function Submit(contacts: seq<string>, name: string, number: string): (r: seq<string>)
    ensures |r| == |contacts| + (if Accepts(name, number) then 1 else 0)
    ensures r[..|contacts|] == contacts
    ensures Accepts(name, number) ==> r[|contacts|] == ContactEntry(name, number)
  {
    if Accepts(name, number) then contacts + [ContactEntry(name, number)] else contacts
  }

  /** The field contents at one press of "Add Contact". */
  datatype Attempt = Attempt(name: string, number: string)

  /** The list after a run of presses, one after the other. */
  function SubmitAll(contacts: seq<string>, attempts: seq<Attempt>): seq<string>
    decreases |attempts|
  {
    if attempts == [] then contacts
    else SubmitAll(Submit(contacts, attempts[0].name, attempts[0].number), attempts[1..])
  }

  /** Reference definition: the entries of the accepted attempts, in the order they were made. */
  function Entries(attempts: seq<Attempt>): seq<string>
  {
    if attempts == [] then []
    else
      var a := attempts[0];
      (if Accepts(a.name, a.number) then [ContactEntry(a.name, a.number)] else []) + Entries(attempts[1..])
  }

  /**
   * Any run of presses leaves the earlier list as a prefix and appends exactly the
   * entries of the accepted attempts, in order: rejected presses add nothing and
   * nothing is merged or removed.
   */
  lemma {:induction false} SubmitAllAppendsEntries(contacts: seq<string>, attempts: seq<Attempt>)
    ensures SubmitAll(contacts, attempts) == contacts + Entries(attempts)
    decreases |attempts|
  {
    if attempts != [] {
      var a := attempts[0];
      SubmitAllAppendsEntries(Submit(contacts, a.name, a.number), attempts[1..]);
      if Accepts(a.name, a.number) {
        assert contacts + [ContactEntry(a.name, a.number)] + Entries(attempts[1..])
            == contacts + ([ContactEntry(a.name, a.number)] + Entries(attempts[1..]));
      } else {
        assert [] + Entries(attempts[1..]) == Entries(attempts[1..]);
      }
    }
  }

  /** The list only grows: every earlier entry keeps its position. */
  lemma ListIsAppendOnly(contacts: seq<string>, attempts: seq<Attempt>)
    ensures |SubmitAll(contacts, attempts)| >= |contacts|
    ensures SubmitAll(contacts, attempts)[..|contacts|] == contacts
  {
    SubmitAllAppendsEntries(contacts, attempts);
  }

  /** No de-duplication: adding the same pair twice stores two equal entries. */
  lemma {:induction false} NoDeduplication(contacts: seq<string>, name: string, number: string)
    requires Accepts(name, number)
    ensures SubmitAll(contacts, [Attempt(name, number), Attempt(name, number)])
         == contacts + [ContactEntry(name, number), ContactEntry(name, number)]
  {
    var attempts := [Attempt(name, number), Attempt(name, number)];
    SubmitAllAppendsEntries(contacts, attempts);
    assert attempts[1..][1..] == [];
    assert Entries(attempts[1..]) == [ContactEntry(name, number)];
  }

  /** Whitespace counts as input: a blank-looking name and number are accepted. */
  lemma WhitespaceIsAccepted()
    ensures Accepts(" ", " ")
    ensures Submit([], " ", " ") == ["  -  "]
  {
    assert ContactEntry(" ", " ") == "  -  ";
  }

  /** The stored string does not determine the pair: a separator inside a field is ambiguous. */
  lemma EntryIsAmbiguous()
    ensures ContactEntry("A - B", "1") == ContactEntry("A", "B - 1")
  {
  }
}
