/** The channel-creation form: live availability check of the name against the server's
    channel list, the submit guard, and the creation request it builds. Lower-casing is a
    parameter (`lower`), the server's answers are inputs. */
module AddPage {
  import opened Wrappers
  import opened Domain
  import opened Text
  import AddContext

  const NameTakenText := "Channel name already exists"
  const NameFreeText := "Channel name is available"
  const CheckRefusedText := "Unable to validate channel name"
  const CheckThrewText := "Error validating channel name"
  const CreateThrewText := "Failed to create channel"
  const DefaultChannelType := "default"

  /** The `nameValidation` state: validity (`null`, `true` or `false`), a message and a
      checking flag. */
  datatype NameValidation = NameValidation(isValid: Option<bool>, message: string, isChecking: bool)

  /** The body of the channel-creation request. */
  datatype ChannelRequest = ChannelRequest(
    name: string,
    members: seq<Option<string>>,
    excludeSelf: bool,
    customType: string,
    broadcast: bool,
    encrypted: bool)

  /** Some existing channel has the same name once both are lower-cased. */
  function NameTaken(channels: seq<string>, name: string, lower: string -> string): (taken: bool)
    ensures name in channels ==> taken
    ensures taken <==> exists i :: 0 <= i < |channels| && lower(channels[i]) == lower(name)
  {
    exists c :: c in channels && lower(c) == lower(name)
  }

  /** `members.map(member => member.username)` */
  function Usernames(members: seq<UserRef>): (names: seq<Option<string>>)
    ensures |names| == |members|
    ensures forall i :: 0 <= i < |members| ==> names[i] == members[i].username
  {
    if members == [] then [] else [members[0].username] + Usernames(members[1..])
  }

  /** The request `handleChannelSubmit` sends. */
  function ChannelPayload(name: string, members: seq<UserRef>): (request: ChannelRequest)
    ensures request.name == Trim(name)
    ensures |request.members| == |members|
    ensures forall i :: 0 <= i < |members| ==> request.members[i] == members[i].username
  {
    ChannelRequest(Trim(name), Usernames(members), true, DefaultChannelType, true, false)
  }

  /** The request names the trimmed channel, lists the members' usernames in selection order,
      and always excludes the creator, with the default type, broadcast on and no encryption. */
  lemma PayloadShape(name: string, members: seq<UserRef>)
    ensures ChannelPayload(name, members).name == Trim(name)
    ensures |ChannelPayload(name, members).members| == |members|
    ensures forall i :: 0 <= i < |members| ==> ChannelPayload(name, members).members[i] == members[i].username
    ensures ChannelPayload(name, members).excludeSelf && ChannelPayload(name, members).broadcast
    ensures !ChannelPayload(name, members).encrypted && ChannelPayload(name, members).customType == DefaultChannelType
  {
  }

  class ChannelForm {
    var name: string
    var members: seq<UserRef>
    var nameValidation: NameValidation
    var isSubmitting: bool
    var error: Option<string>

    constructor ()
      ensures name == "" && members == [] && nameValidation == NameValidation(None, "", false)
      ensures !isSubmitting && error == None
    {
      name, members, nameValidation := "", [], NameValidation(None, "", false);
      isSubmitting, error := false, None;
    }

    /** `handleChannelChange` for the name input. */
    method HandleNameChange(value: string)
      modifies this`name
      ensures name == value
    {
      name := value;
    }

    /** `handleMembersChange` */
    method HandleMembersChange(chosen: seq<UserRef>)
      modifies this`members
      ensures members == chosen
    {
      members := chosen;
    }

    /** `validateChannelName` on the current name: a name that `trim` empties (a blank one, see
        `Text.TrimEmptyIffBlank`) resets without asking the server; a
        fetched list decides taken or available; a refusal or an exception is invalid with its
        own message. Checking always ends. */
    method ValidateChannelName(reply: Reply<seq<string>>, lower: string -> string)
      modifies this`nameValidation
      ensures IsBlank(name) ==> nameValidation == NameValidation(None, "", false)
      ensures !IsBlank(name) && reply.Succeeded? && NameTaken(reply.value, name, lower) ==>
        nameValidation == NameValidation(Some(false), NameTakenText, false)
      ensures !IsBlank(name) && reply.Succeeded? && !NameTaken(reply.value, name, lower) ==>
        nameValidation == NameValidation(Some(true), NameFreeText, false)
      ensures !IsBlank(name) && reply.Refused? ==> nameValidation == NameValidation(Some(false), CheckRefusedText, false)
      ensures !IsBlank(name) && reply.Raised? ==> nameValidation == NameValidation(Some(false), CheckThrewText, false)
      ensures nameValidation.isValid == Some(true) <==> !IsBlank(name) && reply.Succeeded? && !NameTaken(reply.value, name, lower)
    {
      if IsBlank(name) {
        nameValidation := NameValidation(None, "", false);
        return;
      }
      nameValidation := nameValidation.(isChecking := true);
      match reply {
        case Succeeded(channels) =>
          if NameTaken(channels, name, lower) {
            nameValidation := NameValidation(Some(false), NameTakenText, false);
          } else {
            nameValidation := NameValidation(Some(true), NameFreeText, false);
          }
        case Refused(_) =>
          nameValidation := NameValidation(Some(false), CheckRefusedText, false);
        case Raised =>
          nameValidation := NameValidation(Some(false), CheckThrewText, false);
      }
    }

    /** `handleChannelSubmit`: nothing happens unless the name is not blank (its trimmed form is
        not empty) and the name
        was found available; then the request is sent (`request`). Success closes the form and
        goes home (`navigated`); failure records the error. Submitting always ends. */
    method HandleChannelSubmit(reply: Reply<()>, menu: AddContext.AddMenu)
      returns (request: Option<ChannelRequest>, navigated: bool)
      modifies this`isSubmitting, this`error, menu
      ensures IsBlank(name) || nameValidation.isValid != Some(true) ==>
        && request == None && !navigated
        && isSubmitting == old(isSubmitting) && error == old(error) && menu.State() == old(menu.State())
      ensures !IsBlank(name) && nameValidation.isValid == Some(true) ==>
        && request == Some(ChannelPayload(name, members)) && !isSubmitting
        && navigated == reply.Succeeded?
        && error == ErrorOf(reply, CreateThrewText)
        && menu.State() == (if reply.Succeeded? then AddContext.Initial else old(menu.State()))
    {
      if IsBlank(name) || nameValidation.isValid != Some(true) {
        return None, false;
      }
      isSubmitting := true;
      error := None;
      request := Some(ChannelPayload(name, members));
      navigated := false;
      match reply {
        case Succeeded(_) =>
          navigated := true;
          menu.Close();
        case Refused(e) =>
          error := Some(e);
        case Raised =>
          error := Some(CreateThrewText);
      }
      isSubmitting := false;
    }
  }
}
