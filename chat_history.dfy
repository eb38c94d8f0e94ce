/**
 * `updateChatHistory` of services/firestoreService.ts: reject invalid arguments,
 * otherwise issue one `update` that array-unions the new messages into the
 * `chatHistory` field of `users/{userId}/analyses/{analysisId}`, absorbing failure.
 */
module ChatHistory {
  import opened Wrappers
  import opened StoreAdapter

  /** A message record is opaque to this layer: any store value. */
  type Message = Value

  /** The argument guard: the source returns early unless all three are present. */
  predicate ValidArguments(userId: string, analysisId: string, newMessages: seq<Message>)
  {
    userId != "" && analysisId != "" && |newMessages| != 0
  }

  /** `db.collection('users').doc(userId).collection('analyses').doc(analysisId)` */
  function AnalysisHandle(userId: string, analysisId: string): (r: Result<DocHandle, HandleError>)
    ensures userId != "" && r.Success? ==> r.value.collectionPath == "users/" + userId + "/analyses"
    ensures analysisId != "" && r.Success? ==> r.value.id == Some(analysisId)
  {
    var users :- Collection("users");
    var user :- Doc(users, Some(userId));
    var analyses :- SubCollection(user, "analyses");
    Doc(analyses, Some(analysisId))
  }

  /**
   * For present ids the reference resolves exactly when both ids have an odd number of
   * path segments (a plain id has one); otherwise building it throws.
   */
  lemma AnalysisHandleResolves(userId: string, analysisId: string)
    requires userId != "" && analysisId != ""
    ensures AnalysisHandle(userId, analysisId).Success?
        <==> SegmentCount(userId) % 2 == 1 && SegmentCount(analysisId) % 2 == 1
    ensures AnalysisHandle(userId, analysisId).Failure? ==> AnalysisHandle(userId, analysisId).error.InvalidDocumentPath?
  {
    NameIsOneSegment("users");
    NameIsOneSegment("analyses");
    var userPath := DocPath("users", userId);
    var analysesPath := userPath + "/" + "analyses";
    JoinSegments("users", userId);
    JoinSegments(userPath, "analyses");
    JoinSegments(analysesPath, analysisId);
    var users := Collection("users").value;
    if SegmentCount(userId) % 2 == 1 {
      var user := Doc(users, Some(userId)).value;
      assert SubCollectionPath(user, "analyses") == analysesPath;
      var analyses := SubCollection(user, "analyses").value;
      assert AnalysisHandle(userId, analysisId) == Doc(analyses, Some(analysisId));
    } else {
      assert AnalysisHandle(userId, analysisId) == Doc(users, Some(userId)).PropagateFailure();
    }
  }

  /** Plain ids (one segment each) always give a reference. */
  lemma PlainIdsResolve(userId: string, analysisId: string)
    requires IsName(userId) && IsName(analysisId)
    ensures AnalysisHandle(userId, analysisId) == Success(DocHandle("users/" + userId + "/analyses", Some(analysisId)))
  {
    NameIsOneSegment(userId);
    NameIsOneSegment(analysisId);
    AnalysisHandleResolves(userId, analysisId);
  }

  /** The update payload `{ chatHistory: arrayUnion(...newMessages) }`: one field, the new messages in order. */
  function ChatHistoryPayload(newMessages: seq<Message>): (v: Value)
    ensures v.Obj? && v.fields.Keys == {"chatHistory"}
    ensures v.fields["chatHistory"].Sentinel? && v.fields["chatHistory"].sentinel.ArrayUnion?
    ensures v.fields["chatHistory"].sentinel.elements == newMessages
  {
    Obj(map["chatHistory" := ArrayUnionHelper(newMessages)])
  }

  /** What the entry point does: return early, reject while building the reference, or send one call. */
  datatype Plan = Skip | Reject(error: HandleError) | Send(call: StoreCall)

  function Planned(userId: string, analysisId: string, newMessages: seq<Message>): (r: Plan)
    ensures r.Skip? <==> !ValidArguments(userId, analysisId, newMessages)
    ensures r.Reject? <==> ValidArguments(userId, analysisId, newMessages)
                           && AnalysisHandle(userId, analysisId).Failure?
    ensures r.Reject? ==> r.error == AnalysisHandle(userId, analysisId).error
    ensures r.Send? ==> r.call == UpdateDoc(DocRef("users/" + userId + "/analyses", analysisId),
                                            ChatHistoryPayload(newMessages))
  {
    if !ValidArguments(userId, analysisId, newMessages) then Skip
    else
      match AnalysisHandle(userId, analysisId)
      case Failure(e) => Reject(e)
      case Success(ref) =>
        // `analysisId` is non-empty here, so the reference is bound and has `update`.
        match Update(ref, ChatHistoryPayload(newMessages))
        case Success(call) => Send(call)
        case Failure(_) => assert false; Skip
  }

  /** With valid arguments and plain ids, exactly one update is sent, on `users/u/analyses/a`. */
  lemma PlainIdsSend(userId: string, analysisId: string, newMessages: seq<Message>)
    requires IsName(userId) && IsName(analysisId) && |newMessages| != 0
    ensures Planned(userId, analysisId, newMessages).Send?
    ensures var ref := Planned(userId, analysisId, newMessages).call.ref;
            DocPath(ref.collectionPath, ref.id) == "users/" + userId + "/analyses/" + analysisId
  {
    PlainIdsResolve(userId, analysisId);
  }

  /** What the entry point leaves in the console: the two log lines, or nothing. */
  datatype LogLine = InvalidArgumentsWarning | UpdateErrorLogged | NoLog

  /** An abstract document store that records every delegate call issued to it. */
  class RecordingStore {
    var calls: seq<StoreCall>

    constructor ()
      ensures calls == []
    {
      calls := [];
    }

    /** Issue `call`; `fails` is the store's answer, which the model does not predict. */
    method Issue(call: StoreCall, fails: bool) returns (ok: bool)
      modifies this
      ensures calls == old(calls) + [call]
      ensures ok == !fails
    {
      calls := calls + [call];
      ok := !fails;
    }
  }

  /**
   * `updateChatHistory(userId, analysisId, newMessages)`. A `Failure` is the rejected
   * promise that a throw while building the reference gives (it precedes the `try`);
   * whether the store rejects the update (`updateFails`) only decides what is logged.
   */
  method UpdateChatHistory(store: RecordingStore, userId: string, analysisId: string,
                           newMessages: seq<Message>, updateFails: bool)
    returns (r: Result<LogLine, HandleError>)
    modifies store
    ensures !ValidArguments(userId, analysisId, newMessages) ==>
              store.calls == old(store.calls) && r == Success(InvalidArgumentsWarning)
    ensures ValidArguments(userId, analysisId, newMessages) && AnalysisHandle(userId, analysisId).Failure? ==>
              store.calls == old(store.calls) && r == Failure(AnalysisHandle(userId, analysisId).error)
    ensures ValidArguments(userId, analysisId, newMessages) && AnalysisHandle(userId, analysisId).Success? ==>
              store.calls == old(store.calls) + [UpdateDoc(DocRef("users/" + userId + "/analyses", analysisId),
                                                           ChatHistoryPayload(newMessages))]
              && r == Success(if updateFails then UpdateErrorLogged else NoLog)
  {
    var planned := Planned(userId, analysisId, newMessages);
    match planned {
      case Skip =>
        r := Success(InvalidArgumentsWarning);
      case Reject(e) =>
        r := Failure(e);
      case Send(call) =>
        var ok := store.Issue(call, updateFails);
        r := Success(if ok then NoLog else UpdateErrorLogged);
    }
  }
}
