/** The guestbook card: a list of signed entries, newest first, and a form
    whose two fields are cleared once an entry is signed. */
module Guestbook {
  import opened Js

  datatype Entry = Entry(name: string, message: string)

  /** The entries the guestbook starts with. */
  const InitialEntries: seq<Entry> := [
    Entry("Jane", "Had a wonderful stay—sunsets were magical!"),
    Entry("Mike", "Loved kayaking from the backyard!")
  ]

  /** Both fields are truthy, that is, non-empty strings. */
  predicate Filled(e: Entry) {
    e.name != [] && e.message != []
  }

  /** Every entry on show has a name and a message. */
  predicate AllSigned(entries: seq<Entry>) {
    forall i :: 0 <= i < |entries| ==> Filled(entries[i])
  }

  /** The list after submitting the form holding `form`: a filled form goes
      in front of the old entries, which keep their order; any other form
      leaves the list as it was. */
  function Submit(entries: seq<Entry>, form: Entry): (r: seq<Entry>)
    ensures Filled(form) ==> |r| == |entries| + 1 && r[0] == form && r[1..] == entries
    ensures !Filled(form) ==> r == entries
    ensures AllSigned(entries) ==> AllSigned(r)
  {
    if Filled(form) then [form] + entries else entries
  }

  /** Submitting the forms one after another. */
  function SubmitAll(entries: seq<Entry>, forms: seq<Entry>): seq<Entry>
    decreases |forms|
  {
    if forms == [] then entries else SubmitAll(Submit(entries, forms[0]), forms[1..])
  }

  /** Accepting one more form in front of the rest: with the filter keeping
      it, the reversed accepted forms grow by it at their end. */
  lemma AcceptedCons<T>(x: T, xs: seq<T>, p: T -> bool, tail: seq<T>)
    requires p(x)
    ensures Reverse(Filter([x] + xs, p)) + tail == Reverse(Filter(xs, p)) + ([x] + tail)
  {
    var ys := Filter(xs, p);
    FilterCons(x, xs, p);
    ReverseCons(x, ys);
    AppendAssoc(Reverse(ys), [x], tail);
  }

  /** After any run of submissions the list shows the accepted forms newest
      first, above the entries it started with; empty forms leave no trace. */
  lemma {:induction false} SubmitAllIsNewestFirst(entries: seq<Entry>, forms: seq<Entry>)
    ensures SubmitAll(entries, forms) == Reverse(Filter(forms, Filled)) + entries
    decreases |forms|
  {
    if forms == [] {
      assert Reverse(Filter(forms, Filled)) == [];
      assert [] + entries == entries;
    } else {
      var f, rest := forms[0], forms[1..];
      assert forms == [f] + rest;
      SubmitAllIsNewestFirst(Submit(entries, f), rest);
      FilterCons(f, rest, Filled);
      if Filled(f) {
        AcceptedCons(f, rest, Filled, entries);
      }
    }
  }

  /** The guestbook component's state. */
  class Guestbook {
    var entries: seq<Entry>
    var name: string
    var message: string

    /** Two sample entries and an empty form. */
    constructor ()
      ensures entries == InitialEntries && name == "" && message == ""
      ensures AllSigned(entries)
    {
      entries := InitialEntries;
      name := "";
      message := "";
    }

    /** Typing in the name field. */
    method SetName(value: string)
      modifies this`name
      ensures name == value
    {
      name := value;
    }

    /** Typing in the message field. */
    method SetMessage(value: string)
      modifies this`message
      ensures message == value
    {
      message := value;
    }

    /** Submitting the form: with both fields non-empty the entry goes in
      front and the fields are cleared; otherwise nothing changes. */
    method HandleSubmit()
      modifies this`entries, this`name, this`message
      ensures entries == Submit(old(entries), Entry(old(name), old(message)))
      ensures old(name) != [] && old(message) != [] ==>
        |entries| == |old(entries)| + 1 && name == "" && message == ""
      ensures !(old(name) != [] && old(message) != []) ==>
        entries == old(entries) && name == old(name) && message == old(message)
      ensures AllSigned(old(entries)) ==> AllSigned(entries)
    {
      if name != [] && message != [] {
        entries := [Entry(name, message)] + entries;
        name := "";
        message := "";
      }
    }
  }
}
