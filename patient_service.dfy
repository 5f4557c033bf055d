/**
 * The Patientor patient store: a module-level list of patients that
 * `addPatient` and `addEntry` extend in place, read by
 * `getPublicPatients` and `findById`.
 */
module PatientService {
  import opened Wrappers
  import opened PatientEntry
  import opened Seqs

  /** A stored entry: the validated fields plus the id `addEntry` generated. */
  datatype Entry = Entry(id: string, fields: EntryWithoutId)

  /**
   * A stored patient. `entries` is `None` when the stored object has no
   * `entries` property at all, which an unvalidated POST body can leave out.
   */
  datatype Patient = Patient(id: string, name: string, dateOfBirth: string, ssn: string,
                             gender: string, occupation: string, entries: Option<seq<Entry>>)

  /** A patient as listed publicly: everything except `ssn`. */
  datatype PublicPatient = PublicPatient(id: string, name: string, dateOfBirth: string,
                                         gender: string, occupation: string, entries: Option<seq<Entry>>)

  /**
   * The body `addPatient` receives. The route passes it on unvalidated, so it
   * may carry an `id` of its own (`bodyId`); the spread `{ id: uuid(), ...entry }`
   * lets that id win over the generated one.
   */
  datatype NewPatient = NewPatient(bodyId: Option<string>, name: string, dateOfBirth: string, ssn: string,
                                   gender: string, occupation: string, entries: Option<seq<Entry>>)

  /** What `patient.entries.push` throws when the patient has no `entries`. */
  const PushOnUndefined := "Cannot read properties of undefined (reading 'push')"

  /** The outcome of `addEntry`: the updated patient, `undefined`, or the `TypeError` of the push. */
  datatype AddEntryResult = Added(patient: Patient) | NoSuchPatient | PushThrew(message: string)

  function ToPublic(p: Patient): (q: PublicPatient)
    ensures q.id == p.id && q.name == p.name && q.dateOfBirth == p.dateOfBirth
    ensures q.gender == p.gender && q.occupation == p.occupation && q.entries == p.entries
  {
    PublicPatient(p.id, p.name, p.dateOfBirth, p.gender, p.occupation, p.entries)
  }

  /** `patients.find(p => p.id === id)`, as the index of the first match. */
  function Find(ps: seq<Patient>, id: string): (r: Option<nat>)
    ensures r.Some? ==> r.value < |ps| && ps[r.value].id == id
    ensures r.Some? ==> forall k :: 0 <= k < r.value ==> ps[k].id != id
    ensures r.None? <==> forall k :: 0 <= k < |ps| ==> ps[k].id != id
  {
    IndexOf(ps, (p: Patient) => p.id == id)
  }

  /** The first patient with the id has an `entries` list to push onto. */
  predicate CanPush(ps: seq<Patient>, id: string) {
    Find(ps, id).Some? && ps[Find(ps, id).value].entries.Some?
  }

  /**
   * The store after `addEntry(id, entry)` pushed `entry` onto the first
   * patient with that id; unchanged when there is none or the push throws.
   */
  function WithEntry(ps: seq<Patient>, id: string, entry: Entry): seq<Patient> {
    match Find(ps, id)
    case None => ps
    case Some(i) =>
      match ps[i].entries
      case None => ps
      case Some(es) => ps[i := ps[i].(entries := Some(es + [entry]))]
  }

  /** Only the first patient with the id changes, and only by one entry at the end of `entries`. */
  lemma WithEntryEffect(ps: seq<Patient>, id: string, entry: Entry)
    ensures |WithEntry(ps, id, entry)| == |ps|
    ensures !CanPush(ps, id) ==> WithEntry(ps, id, entry) == ps
    ensures CanPush(ps, id) ==>
              var i, qs := Find(ps, id).value, WithEntry(ps, id, entry);
              && qs[i] == ps[i].(entries := Some(ps[i].entries.value + [entry]))
              && forall k :: 0 <= k < |ps| && k != i ==> qs[k] == ps[k]
  {
  }

  /**
   * A patient added from a body without `entries`, under a fresh id, is the
   * one a later `addEntry` finds, and the push onto it throws.
   */
  lemma AddedWithoutEntriesCannotPush(ps: seq<Patient>, p: Patient)
    requires p.entries.None?
    requires forall k :: 0 <= k < |ps| ==> ps[k].id != p.id
    ensures Find(ps + [p], p.id) == Some(|ps|)
    ensures !CanPush(ps + [p], p.id)
  {
    var qs := ps + [p];
    assert qs[|ps|].id == p.id;
  }

  /** Ids never change, so a lookup finds the same position before and after. */
  lemma FindSameIds(ps: seq<Patient>, qs: seq<Patient>, id: string)
    requires |ps| == |qs| && forall k :: 0 <= k < |ps| ==> ps[k].id == qs[k].id
    ensures Find(ps, id) == Find(qs, id)
  {
    IndexOfPointwise(ps, qs, (p: Patient) => p.id == id, (p: Patient) => p.id == id);
  }

  /** After a successful `addEntry(id, e)`, `findById(id)` ends with the new entry. */
  lemma {:induction false} FindAfterWithEntry(ps: seq<Patient>, id: string, entry: Entry)
    requires CanPush(ps, id)
    ensures var qs := WithEntry(ps, id, entry);
            && Find(qs, id) == Find(ps, id)
            && var p := qs[Find(qs, id).value];
               p.entries.Some? && |p.entries.value| > 0 && p.entries.value[|p.entries.value| - 1] == entry
  {
    var qs := WithEntry(ps, id, entry);
    FindSameIds(ps, qs, id);
  }

  class PatientStore {
    var patients: seq<Patient>

    constructor (initial: seq<Patient>)
      ensures patients == initial
    {
      patients := initial;
    }

    /** `getPublicPatients`: every patient in order, without `ssn`. */
    function GetPublicPatients(): (r: seq<PublicPatient>)
      reads this
      ensures |r| == |patients|
      ensures forall i :: 0 <= i < |r| ==> r[i] == ToPublic(patients[i])
    {
      seq(|patients|, i reads this requires 0 <= i < |patients| => ToPublic(patients[i]))
    }

    /** `findById`: the first patient with the id, `undefined` when there is none. */
    function FindById(id: string): (r: Option<Patient>)
      reads this
      ensures r.None? <==> forall k :: 0 <= k < |patients| ==> patients[k].id != id
      ensures r.Some? ==> r.value.id == id
      ensures r.Some? ==>
                exists i :: 0 <= i < |patients| && patients[i] == r.value &&
                  forall k :: 0 <= k < i ==> patients[k].id != id
    {
      match Find(patients, id)
      case None => None
      case Some(i) => Some(patients[i])
    }

    /** `addPatient`: stores and returns the body with an id, at the end. */
    method AddPatient(np: NewPatient, generatedId: string) returns (p: Patient)
      modifies this
      ensures p.id == np.bodyId.GetOr(generatedId)
      ensures p.name == np.name && p.dateOfBirth == np.dateOfBirth && p.ssn == np.ssn
      ensures p.gender == np.gender && p.occupation == np.occupation && p.entries == np.entries
      ensures patients == old(patients) + [p]
    {
      p := Patient(np.bodyId.GetOr(generatedId), np.name, np.dateOfBirth, np.ssn,
                   np.gender, np.occupation, np.entries);
      patients := patients + [p];
    }

    /**
     * `addEntry`: gives the entry the generated id and pushes it onto the
     * first patient with the id; `undefined` and no change when there is none,
     * and the push's `TypeError`, again with no change, when that patient has
     * no `entries`.
     */
    method AddEntry(id: string, e: EntryWithoutId, generatedId: string) returns (r: AddEntryResult)
      modifies this
      ensures patients == WithEntry(old(patients), id, Entry(generatedId, e))
      ensures r.NoSuchPatient? <==> Find(old(patients), id).None?
      ensures r.PushThrew? <==> Find(old(patients), id).Some? && !CanPush(old(patients), id)
      ensures r.PushThrew? ==> r.message == PushOnUndefined
      ensures r.Added? ==> Some(r.patient) == FindById(id) && r.patient == patients[Find(old(patients), id).value]
    {
      var i := Find(patients, id);
      if i.None? {
        return NoSuchPatient;
      }
      var p := patients[i.value];
      if p.entries.None? {
        return PushThrew(PushOnUndefined);
      }
      ghost var before := patients;
      p := p.(entries := Some(p.entries.value + [Entry(generatedId, e)]));
      patients := patients[i.value := p];
      FindSameIds(before, patients, id);
      r := Added(p);
    }
  }
}
