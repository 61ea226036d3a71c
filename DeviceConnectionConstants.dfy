/**
  The vocabulary of the Device Connection API: the names of the fields of a
  last-known-gateway record, and the closed set of request actions together
  with the message subject that names each of them on the wire.
 */
module DeviceConnectionConstants {

  import opened Wrappers

  /** Key of the field holding the identifier of a gateway. */
  const FieldGatewayId: string := "gateway-id"

  /** Key of the field holding the date of the last update of a record. */
  const FieldLastUpdated: string := "last-updated"

  /** The request actions of the Device Connection API, in declaration order. */
  datatype DeviceConnectionAction =
    | GetLastGateway
    | SetLastGateway
    | GetCmdHandlingAdapterInstances
    | SetCmdHandlingAdapterInstance
    | RemoveCmdHandlingAdapterInstance
    | Unknown

  /** The message subject of an action. */
  function Subject(action: DeviceConnectionAction): (s: string)
    ensures action != Unknown <==> s in ValidSubjects
    ensures action == Unknown ==> s == "unknown"
  {
    match action
    case GetLastGateway => "get-last-gw"
    case SetLastGateway => "set-last-gw"
    case GetCmdHandlingAdapterInstances => "get-cmd-handling-adapter-instances"
    case SetCmdHandlingAdapterInstance => "set-cmd-handling-adapter-instance"
    case RemoveCmdHandlingAdapterInstance => "remove-cmd-handling-adapter-instance"
    case Unknown => "unknown"
  }

  /** All actions in declaration order: what the enum's values() yields. */
  const Values: seq<DeviceConnectionAction> :=
    [GetLastGateway, SetLastGateway, GetCmdHandlingAdapterInstances,
     SetCmdHandlingAdapterInstance, RemoveCmdHandlingAdapterInstance, Unknown]

  /**
    The linear scan of `from`: the first action of `actions` whose subject
    equals `subject`, or Unknown when there is none.
   */
  function Scan(subject: string, actions: seq<DeviceConnectionAction>): (r: DeviceConnectionAction)
    ensures r == Unknown || (r in actions && Subject(r) == subject)
    ensures (exists i :: 0 <= i < |actions| && Subject(actions[i]) == subject) ==> Subject(r) == subject
    ensures (forall i :: 0 <= i < |actions| ==> Subject(actions[i]) != subject) ==> r == Unknown
  {
    if actions == [] then Unknown
    else if subject == Subject(actions[0]) then actions[0]
    else Scan(subject, actions[1..])
  }

  /** The subjects of two different actions differ, so Subject is injective. */
  lemma SubjectInjective(a: DeviceConnectionAction, b: DeviceConnectionAction)
    ensures Subject(a) == Subject(b) ==> a == b
  {
    if a != b {
      var sa, sb := Subject(a), Subject(b);
      if |sa| == |sb| {
        // Every pair of subjects of equal length already differs in its first letter.
        assert sa[0] != sb[0];
      }
    }
  }

  /** Position of an action in Values. */
  function ActionIndex(a: DeviceConnectionAction): (i: nat)
    ensures i < |Values| && Values[i] == a
  {
    match a
    case GetLastGateway => 0
    case SetLastGateway => 1
    case GetCmdHandlingAdapterInstances => 2
    case SetCmdHandlingAdapterInstance => 3
    case RemoveCmdHandlingAdapterInstance => 4
    case Unknown => 5
  }

  /**
    Looks an action up by its subject, exactly and case-sensitively; a missing
    (null) subject, or one that names no action, yields Unknown.
   */
  function From(subject: Option<string>): (r: DeviceConnectionAction)
    ensures subject.None? ==> r == Unknown
    ensures r != Unknown ==> subject == Some(Subject(r))
    ensures forall a :: subject == Some(Subject(a)) ==> r == a
  {
    match subject
    case None => Unknown
    case Some(s) =>
      var r := Scan(s, Values);
      forall a | s == Subject(a) ensures r == a {
        assert Values[ActionIndex(a)] == a;
        SubjectInjective(r, a);
      }
      r
  }

  /** A subject is a valid action when it names one of the actions other than Unknown. */
  function IsValid(subject: Option<string>): (b: bool)
    ensures b <==> exists a :: a != Unknown && subject == Some(Subject(a))
  {
    From(subject) != Unknown
  }

  /** Round trip: looking up the subject of an action yields that action. */
  lemma {:induction false} FromSubject(a: DeviceConnectionAction)
    ensures From(Some(Subject(a))) == a
  {
    var i := ActionIndex(a);
    assert Subject(Values[i]) == Subject(a);
    SubjectInjective(From(Some(Subject(a))), a);
  }

  /** Each of the six subjects resolves to the action declared with it, and to no other. */
  lemma FromEachSubject()
    ensures From(Some("get-last-gw")) == GetLastGateway
    ensures From(Some("set-last-gw")) == SetLastGateway
    ensures From(Some("get-cmd-handling-adapter-instances")) == GetCmdHandlingAdapterInstances
    ensures From(Some("set-cmd-handling-adapter-instance")) == SetCmdHandlingAdapterInstance
    ensures From(Some("remove-cmd-handling-adapter-instance")) == RemoveCmdHandlingAdapterInstance
    ensures From(Some("unknown")) == Unknown
  {
    FromSubject(GetLastGateway);
    FromSubject(SetLastGateway);
    FromSubject(GetCmdHandlingAdapterInstances);
    FromSubject(SetCmdHandlingAdapterInstance);
    FromSubject(RemoveCmdHandlingAdapterInstance);
    FromSubject(Unknown);
  }

  /** The five subjects that From resolves to an action other than Unknown. */
  const ValidSubjects: set<string> :=
    {"get-last-gw", "set-last-gw", "get-cmd-handling-adapter-instances",
     "set-cmd-handling-adapter-instance", "remove-cmd-handling-adapter-instance"}

  /**
    From yields an action other than Unknown exactly for the five subjects of
    the other actions; every other string, "unknown" included, yields Unknown.
   */
  lemma FromKnownIff(s: string)
    ensures From(Some(s)) != Unknown <==> s in ValidSubjects
    ensures IsValid(Some(s)) <==> s in ValidSubjects
  {
    var r := From(Some(s));
    if s in ValidSubjects {
      var a := if s == "get-last-gw" then GetLastGateway
        else if s == "set-last-gw" then SetLastGateway
        else if s == "get-cmd-handling-adapter-instances" then GetCmdHandlingAdapterInstances
        else if s == "set-cmd-handling-adapter-instance" then SetCmdHandlingAdapterInstance
        else RemoveCmdHandlingAdapterInstance;
      assert Subject(a) == s;
    }
  }

  /** Neither a missing subject nor the subject of Unknown itself is valid. */
  lemma UnknownIsNotValid()
    ensures !IsValid(None)
    ensures !IsValid(Some("unknown"))
    ensures From(Some("unknown")) == Unknown
  {
    FromSubject(Unknown);
  }

  /** Matching is case-sensitive: an upper-cased subject names no action. */
  lemma FromIsCaseSensitive()
    ensures From(Some("GET-LAST-GW")) == Unknown
    ensures !IsValid(Some("SET-LAST-GW"))
  {
    FromKnownIff("GET-LAST-GW");
    FromKnownIff("SET-LAST-GW");
  }

  /** The two record field keys differ, so a record's two fields never collide. */
  lemma FieldKeysDistinct()
    ensures FieldGatewayId != FieldLastUpdated
  {
    assert FieldGatewayId[0] != FieldLastUpdated[0];
  }
}
