/**
 * commands/reminder.js: `!set_reminder <date/time> - <message> [-e]`. The
 * arguments are joined, split at the first ` - ` by the reminder pattern,
 * the date text is parsed, and a reminder is scheduled together with a
 * confirmation. Date parsing (`new Date`) and `toLocaleString` are
 * parameters; the scheduler is the `Scheduled` outcome.
 */
module Reminder {
  import opened Text
  import opened LazySplit

  const UsageReply := "Please specify the date, time, and reminder message. Usage: `!set_reminder <date/time> - <message> [-e]`"
  const InvalidFormatReply := "Invalid format. Use: `!set_reminder <date/time> - <message> [-e]`"
  const InvalidDateReply := "Invalid date/time format. Please try again."

  datatype Outcome =
    | Rejected(reply: string)                                         // one message, nothing scheduled
    | Scheduled(at: int, reminderText: string, confirmation: string)  // job at `at`, confirmation sent now

  /** `reminderMessage.replace(/\s-\s-e$/, '')`: a final flag is cut off. */
  function StripFlag(message: string): (r: string)
    ensures EndsWithFlag(message) ==> |r| + 5 == |message| && message == r + message[|r|..]
    ensures !EndsWithFlag(message) ==> r == message
  {
    if EndsWithFlag(message) then
      assert message == message[..|message| - 5] + message[|message| - 5..];
      message[..|message| - 5]
    else message
  }

  /** The text the scheduled job sends. */
  function ReminderText(message: string, mentionEveryone: bool): string
  {
    (if mentionEveryone then "@everyone " else "") + "\U{23F0} Reminder: " + message
  }

  function Confirmation(when: string, message: string, mentionEveryone: bool): string
  {
    "Reminder set for " + when + ": \"" + message + "\"" + (if mentionEveryone then " (\U{1F6A8})" else "")
  }

  /** The reminder mentions everyone, and the confirmation shows the siren, exactly when flagged. */
  lemma MentionMarks(message: string, when: string, mentionEveryone: bool)
    ensures StartsWith(ReminderText(message, mentionEveryone), "@everyone ") <==> mentionEveryone
    ensures EndsWith(Confirmation(when, message, mentionEveryone), " (\U{1F6A8})") <==> mentionEveryone
  {
    var text := ReminderText(message, mentionEveryone);
    var confirmation := Confirmation(when, message, mentionEveryone);
    if mentionEveryone {
      assert text[..10] == "@everyone ";
      assert confirmation[|confirmation| - 4..] == " (\U{1F6A8})";
    } else {
      assert text[0] == '\U{23F0}';
      assert confirmation[|confirmation| - 1] == '"';
    }
  }

  /** `execute` (reminder.js:19-58). */
  function SetReminder(args: seq<string>, parseDate: string -> Option<int>, localeString: int -> string): (o: Outcome)
    ensures o == Rejected(UsageReply) <==> Join(args, " ") == ""
    ensures o == Rejected(InvalidFormatReply) <==>
              Join(args, " ") != "" && Match(ReminderTail, Join(args, " ")).None?
    ensures o == Rejected(InvalidDateReply) <==>
              && Join(args, " ") != "" && Match(ReminderTail, Join(args, " ")).Some?
              && parseDate(Match(ReminderTail, Join(args, " ")).value.0).None?
    ensures o.Scheduled? ==>
              && Match(ReminderTail, Join(args, " ")).Some?
              && parseDate(Match(ReminderTail, Join(args, " ")).value.0) == Some(o.at)
              && (StartsWith(o.reminderText, "@everyone ") <==> EndsWith(Join(args, " "), "-e"))
              && (EndsWith(o.confirmation, " (\U{1F6A8})") <==> EndsWith(Join(args, " "), "-e"))
  {
    var input := Join(args, " ");
    if input == "" then Rejected(UsageReply)
    else
      match Match(ReminderTail, input)
      case None => Rejected(InvalidFormatReply)
      case Some((dateTimeInput, captured)) =>
        var mentionEveryone := EndsWith(input, "-e");
        var reminderMessage := if mentionEveryone then StripFlag(captured) else captured;
        match parseDate(dateTimeInput)
        case None => Rejected(InvalidDateReply)
        case Some(at) =>
          var text := ReminderText(reminderMessage, mentionEveryone);
          var confirmation := Confirmation(localeString(at), reminderMessage, mentionEveryone);
          MentionMarks(reminderMessage, localeString(at), mentionEveryone);
          Scheduled(at, text, confirmation)
  }

  /**
   * For `<date> - <message>` with an optional ` - -e` flag, where the date has
   * no separator of its own: the date text is what is parsed, the message
   * loses the flag, and everyone is mentioned when the input ends with `-e`
   * (with or without the full flag).
   */
  lemma ReminderFromParts(date: string, message: string, flagged: bool,
                          parseDate: string -> Option<int>, localeString: int -> string)
    requires NoLineTerminator(date) && NoSeparatorIn(date)
    requires NoLineTerminator(message) && |message| >= 1 && !EndsWithFlag(message)
    ensures var input := date + " - " + message + FlagText(flagged);
      var mention := flagged || EndsWith(message, "-e");
      SetReminder([input], parseDate, localeString)
        == (match parseDate(date)
            case None => Rejected(InvalidDateReply)
            case Some(at) => Scheduled(at, ReminderText(message, mention), Confirmation(localeString(at), message, mention)))
  {
    var tail := message + FlagText(flagged);
    var input := date + " - " + message + FlagText(flagged);
    assert input == date + " - " + tail;
    TailOfMessage(message, flagged);
    MatchAtFirstSeparator(ReminderTail, date, tail);
    assert Join([input], " ") == input;
    MentionOfParts(date, message, flagged);
  }

  function FlagText(flagged: bool): string
  {
    if flagged then " - -e" else ""
  }

  lemma TailOfMessage(message: string, flagged: bool)
    requires NoLineTerminator(message) && |message| >= 1 && !EndsWithFlag(message)
    ensures MatchTail(ReminderTail, message + FlagText(flagged)) == Some(message)
  {
    var tail := message + FlagText(flagged);
    if flagged {
      assert tail[|tail| - 5..] == " - -e";
      assert IsFlag(" - -e");
      assert tail[..|tail| - 5] == message;
    } else {
      assert tail == message;
    }
  }

  lemma MentionOfParts(date: string, message: string, flagged: bool)
    requires |message| >= 1
    ensures EndsWith(date + " - " + message + FlagText(flagged), "-e") == (flagged || EndsWith(message, "-e"))
  {
    var input := date + " - " + message + FlagText(flagged);
    if flagged {
      assert input[|input| - 2..] == "-e";
    } else {
      assert input == date + " - " + message;
      if |message| >= 2 {
        assert input[|input| - 2..] == message[|message| - 2..];
      } else {
        assert input[|input| - 2] == ' ';
      }
    }
  }

  /** Without any `\s-\s` in the joined input, the reply is the format error. */
  lemma NoSeparatorIsInvalid(args: seq<string>, parseDate: string -> Option<int>, localeString: int -> string)
    requires Join(args, " ") != ""
    requires forall i :: 0 <= i <= |Join(args, " ")| ==> !IsSepAt(Join(args, " "), i)
    ensures SetReminder(args, parseDate, localeString) == Rejected(InvalidFormatReply)
  {
  }
}
