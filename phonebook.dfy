/**
 * The phonebook component: its five pieces of state and the four handlers
 * that change them. The shown list is recomputed only when the search text
 * changes, so a person added afterwards stays hidden from it until the next
 * keystroke in the search box.
 */
module Phonebook {
  import opened Wrappers
  import opened Seqs
  import opened Text

  /** The initial persons carry an `id`; the ones `addPerson` creates do not. */
  datatype Person = Person(name: string, number: string, id: Option<int>)

  function InitialPersons(): seq<Person> {
    [ Person("Arto Hellas", "040-123456", Some(1)),
      Person("Ada Lovelace", "39-44-5323523", Some(2)),
      Person("Dan Abramov", "12-43-234345", Some(3)),
      Person("Mary Poppendieck", "39-23-6423122", Some(4)) ]
  }

  predicate DistinctNames(ps: seq<Person>) {
    forall i, j :: 0 <= i < j < |ps| ==> ps[i].name != ps[j].name
  }

  /** `persons.some(person => person.name === name)` */
  predicate HasName(ps: seq<Person>, name: string) {
    exists i :: 0 <= i < |ps| && ps[i].name == name
  }

  /** The filter's callback for a lower-cased query. */
  function NameContains(query: string): Person -> bool {
    (p: Person) => Contains(ToLower(p.name), query)
  }

  /** The list the search box selects: names containing the query, ignoring case, in order. */
  function Shown(ps: seq<Person>, search: string): seq<Person> {
    Filter(ps, NameContains(ToLower(search)))
  }

  /** A person is shown exactly when it is in the book and its name contains the query, ignoring case. */
  lemma ShownCharacterized(ps: seq<Person>, search: string)
    ensures forall p :: p in Shown(ps, search) <==> p in ps && Contains(ToLower(p.name), ToLower(search))
  {
    forall p | p in ps && Contains(ToLower(p.name), ToLower(search)) ensures p in Shown(ps, search) {
      var i :| 0 <= i < |ps| && ps[i] == p;
    }
  }

  /** Clearing the search box shows everyone again. */
  lemma EmptySearchShowsAll(ps: seq<Person>)
    ensures Shown(ps, "") == ps
  {
    forall i | 0 <= i < |ps| ensures NameContains(ToLower(""))(ps[i]) {
      ContainsEmpty(ToLower(ps[i].name));
    }
    FilterAll(ps, NameContains(ToLower("")));
  }

  /** A person's own name, in any letter case, finds that person. */
  lemma OwnNameFinds(ps: seq<Person>, i: nat, search: string)
    requires i < |ps| && ToLower(search) == ToLower(ps[i].name)
    ensures ps[i] in Shown(ps, search)
  {
    ContainsItself(ToLower(ps[i].name));
  }

  class Phonebook {
    var persons: seq<Person>
    var newName: string
    var newNumber: string
    var searchName: string
    var personsToShow: seq<Person>

    /** Names are unique, and only persons of the book are shown. */
    ghost predicate Valid()
      reads this
    {
      && DistinctNames(persons)
      && forall i :: 0 <= i < |personsToShow| ==> personsToShow[i] in persons
    }

    constructor ()
      ensures Valid()
      ensures persons == InitialPersons() && personsToShow == InitialPersons()
      ensures newName == "" && newNumber == "" && searchName == ""
    {
      persons := InitialPersons();
      newName, newNumber, searchName := "", "", "";
      personsToShow := InitialPersons();
    }

    /** `handleNameChange` */
    method HandleNameChange(value: string)
      requires Valid()
      modifies this
      ensures Valid()
      ensures newName == value
      ensures persons == old(persons) && newNumber == old(newNumber)
      ensures searchName == old(searchName) && personsToShow == old(personsToShow)
    {
      newName := value;
    }

    /** `handleNumberChange` */
    method HandleNumberChange(value: string)
      requires Valid()
      modifies this
      ensures Valid()
      ensures newNumber == value
      ensures persons == old(persons) && newName == old(newName)
      ensures searchName == old(searchName) && personsToShow == old(personsToShow)
    {
      newNumber := value;
    }

    /** `handleSearchNameChange`: stores the text and re-filters the whole book. */
    method HandleSearchNameChange(value: string)
      requires Valid()
      modifies this
      ensures Valid()
      ensures searchName == value && personsToShow == Shown(persons, value)
      ensures persons == old(persons) && newName == old(newName) && newNumber == old(newNumber)
    {
      searchName := value;
      personsToShow := Shown(persons, value);
    }

    /**
     * `addPerson`: nothing for an empty name or number; the alert text and
     * nothing else for a name already in the book; otherwise the person is
     * appended without an id and the name field is cleared. The number field
     * and the shown list are left as they were.
     */
    method AddPerson() returns (alert: Option<string>)
      requires Valid()
      modifies this
      ensures Valid()
      ensures newNumber == old(newNumber) && searchName == old(searchName)
      ensures personsToShow == old(personsToShow)
      ensures old(newName) == "" || old(newNumber) == "" ==>
                alert.None? && persons == old(persons) && newName == old(newName)
      ensures old(newName) != "" && old(newNumber) != "" && HasName(old(persons), old(newName)) ==>
                && alert == Some(old(newName) + " is already added to the phonebook")
                && persons == old(persons) && newName == old(newName)
      ensures old(newName) != "" && old(newNumber) != "" && !HasName(old(persons), old(newName)) ==>
                && alert.None?
                && persons == old(persons) + [Person(old(newName), old(newNumber), None)]
                && newName == ""
    {
      if newName == "" || newNumber == "" {
        return None;
      }
      if exists i :: 0 <= i < |persons| && persons[i].name == newName {
        return Some(newName + " is already added to the phonebook");
      }
      var added := persons + [Person(newName, newNumber, None)];
      assert forall i :: 0 <= i < |persons| ==> added[i] == persons[i];
      persons := added;
      newName := "";
      alert := None;
    }
  }
}
