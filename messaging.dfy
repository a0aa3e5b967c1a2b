/**
 * The communication log: the user records messages exchanged with the other
 * parent, choosing for each whether the user or the other parent sent it.
 * The log itself belongs to the parent component; this component builds
 * each new entry. `AppMessage` is declared by a later version of the types
 * file than this model's; it carries here the fields the component writes.
 */
module Messaging {
  import opened Wrappers
  import opened Types
  import opened Strings

  datatype Sender = UserSender | OtherParentSender

  datatype AppMessage = AppMessage(id: string, sender: Sender, text: string, timestamp: Instant)

  /** The other parent's role: `Father` when the profile says the user is the mother, `Mother` in every other case. */
  function OtherParentRole(profile: Option<UserProfile>): (r: ParentRole)
    ensures r != Unset
    ensures r == Father <==> profile.Some? && profile.value.role == Mother
  {
    if profile.Some? then OtherParent(profile.value.role) else Mother
  }

  /** The caption under a logged message: the user's name (or "Me"), or the other parent's role. */
  function SenderLabel(m: AppMessage, profile: Option<UserProfile>): (caption: string)
    ensures m.sender == UserSender && profile.Some? && profile.value.name != [] ==> caption == profile.value.name
    ensures m.sender == UserSender && !(profile.Some? && profile.value.name != []) ==> caption == "Me"
    ensures m.sender == OtherParentSender ==> caption == RoleName(OtherParentRole(profile)) && caption != []
  {
    match m.sender
    case UserSender => if profile.Some? && profile.value.name != [] then profile.value.name else "Me"
    case OtherParentSender => RoleName(OtherParentRole(profile))
  }

  class MessageComposer {
    var input: string
    var sender: Sender

    constructor ()
      ensures input == [] && sender == UserSender
    {
      input := [];
      sender := UserSender;
    }

    /** The two toggle buttons choose who sent the next message. */
    method SetSender(s: Sender)
      modifies this
      ensures sender == s && input == old(input)
    {
      sender := s;
    }

    /**
     * Adding a message: nothing happens for blank input. Otherwise the
     * message handed to the log carries the trimmed input, the current
     * sender, an id made from the clock and the given timestamp, and the
     * input is cleared.
     */
    method Add(now: nat, timestamp: Instant) returns (added: Option<AppMessage>)
      modifies this
      ensures IsBlank(old(input)) ==> added.None? && input == old(input)
      ensures !IsBlank(old(input)) ==>
        && added == Some(AppMessage("msg_" + NatToString(now), old(sender), Trim(old(input)), timestamp))
        && input == []
      ensures added.Some? ==> added.value.text != [] && StartsWith(added.value.id, "msg_")
      ensures sender == old(sender)
    {
      if TrimsToEmpty(input) {
        return None;
      }
      TrimEmptyIffBlank(input);
      added := Some(AppMessage("msg_" + NatToString(now), sender, Trim(input), timestamp));
      input := [];
    }
  }

  /** A logged text starts and ends with visible characters and is the input with surrounding blanks removed. */
  lemma AddedTextIsTrimmed(input: string)
    requires !IsBlank(input)
    ensures Trim(input) != [] && !IsSpace(Trim(input)[0]) && !IsSpace(Trim(input)[|Trim(input)| - 1])
  {
    TrimEmptyIffBlank(input);
  }
}
