/**
 * The Patientor `/api/patients` router: four handlers that read or extend
 * the store and map each outcome to a status code and a JSON body.
 */
module PatientRoutes {
  import opened Wrappers
  import opened Json
  import opened PatientEntry
  import opened PatientService

  datatype Body =
    | PatientJson(patient: Patient)
    | PublicList(patients: seq<PublicPatient>)
    | IssueList(issues: seq<Issue>)
    | ErrorText(message: string)
    | NoBody

  datatype Response = Response(status: int, body: Body)

  /** What a handler's `catch` can receive. */
  datatype Thrown = ZodThrown(error: ZodError) | ErrorThrown(message: string) | OtherThrown

  /** The `catch` of POST `/:id/entries`: issues, an `Error`'s message, or 'Unknown error', all 400. */
  function EntryErrorResponse(t: Thrown): (r: Response)
    ensures r.status == 400
    ensures t.ZodThrown? ==> r.body == IssueList(t.error.issues)
    ensures t.ErrorThrown? ==> r.body == ErrorText(t.message)
    ensures t.OtherThrown? ==> r.body == ErrorText("Unknown error")
  {
    match t
    case ZodThrown(e) => Response(400, IssueList(e.issues))
    case ErrorThrown(m) => Response(400, ErrorText(m))
    case OtherThrown => Response(400, ErrorText("Unknown error"))
  }

  /** The `catch` of POST `/`: only a `ZodError` keeps its issues; everything else is 'Unknown error'. */
  function PatientErrorResponse(t: Thrown): (r: Response)
    ensures r.status == 400
    ensures t.ZodThrown? ==> r.body == IssueList(t.error.issues)
    ensures !t.ZodThrown? ==> r.body == ErrorText("Unknown error")
  {
    match t
    case ZodThrown(e) => Response(400, IssueList(e.issues))
    case _ => Response(400, ErrorText("Unknown error"))
  }

  /** GET `/`: the public list. */
  method GetPatients(store: PatientStore) returns (res: Response)
    ensures res.status == 200
    ensures res.body.PublicList? && |res.body.patients| == |store.patients|
    ensures forall i :: 0 <= i < |store.patients| ==> res.body.patients[i] == ToPublic(store.patients[i])
  {
    res := Response(200, PublicList(store.GetPublicPatients()));
  }

  /** GET `/:id`: the patient, or 404 exactly when there is none with that id. */
  method GetPatient(store: PatientStore, id: string) returns (res: Response)
    ensures res.status == 404 <==> forall k :: 0 <= k < |store.patients| ==> store.patients[k].id != id
    ensures res.status == 404 ==> res.body == NoBody
    ensures res.status != 404 ==> res == Response(200, PatientJson(store.FindById(id).value))
    ensures res.status != 404 ==> res.body.patient.id == id
  {
    var p := store.FindById(id);
    if p.Some? {
      res := Response(200, PatientJson(p.value));
    } else {
      res := Response(404, NoBody);
    }
  }

  /**
   * POST `/`: the body goes to `addPatient` unvalidated and comes back with
   * its id, the body's own `id` winning over the generated one; nothing in
   * it throws.
   */
  method PostPatient(store: PatientStore, body: NewPatient, generatedId: string) returns (res: Response)
    modifies store
    ensures |store.patients| == |old(store.patients)| + 1
    ensures store.patients[..|old(store.patients)|] == old(store.patients)
    ensures store.patients[|old(store.patients)|] ==
              Patient(body.bodyId.GetOr(generatedId), body.name, body.dateOfBirth, body.ssn,
                      body.gender, body.occupation, body.entries)
    ensures res == Response(200, PatientJson(store.patients[|store.patients| - 1]))
  {
    var p := store.AddPatient(body, generatedId);
    assert store.patients[..|old(store.patients)|] == old(store.patients);
    res := Response(200, PatientJson(p));
  }

  /**
   * POST `/:id/entries`: validate the body first (400 with zod's issues,
   * whatever the id), then append (404 for an unknown id, 400 with the
   * `TypeError`'s message for a patient stored without `entries`), else 200
   * with the updated patient.
   */
  method PostEntry(store: PatientStore, id: string, body: Json, ratings: set<int>, generatedId: string)
    returns (res: Response)
    modifies store
    ensures ToNewEntry(body, ratings).Failure? ==>
              store.patients == old(store.patients) &&
              res == EntryErrorResponse(ZodThrown(ToNewEntry(body, ratings).error))
    ensures ToNewEntry(body, ratings).Success? && Find(old(store.patients), id).None? ==>
              store.patients == old(store.patients) && res == Response(404, NoBody)
    ensures ToNewEntry(body, ratings).Success? && Find(old(store.patients), id).Some? &&
            !CanPush(old(store.patients), id) ==>
              store.patients == old(store.patients) &&
              res == EntryErrorResponse(ErrorThrown(PushOnUndefined))
    ensures ToNewEntry(body, ratings).Success? && CanPush(old(store.patients), id) ==>
              var e := Entry(generatedId, ToNewEntry(body, ratings).value);
              && store.patients == WithEntry(old(store.patients), id, e)
              && res == Response(200, PatientJson(store.patients[Find(old(store.patients), id).value]))
  {
    var parsed := ToNewEntry(body, ratings);
    if parsed.Failure? {
      return EntryErrorResponse(ZodThrown(parsed.error));
    }
    var added := store.AddEntry(id, parsed.value, generatedId);
    match added {
      case Added(p) => res := Response(200, PatientJson(p));
      case NoSuchPatient => res := Response(404, NoBody);
      case PushThrew(m) => res := EntryErrorResponse(ErrorThrown(m));
    }
  }
}
