/**
 * `parse_homework_status`: turns one homework record of the review API into the
 * notification text, through a fixed table of three statuses.
 */
module Translate {
  import opened Wrappers
  import opened Json
  import opened Exceptions

  /** The three statuses the table knows. */
  datatype Status = Reviewing | Approved | Rejected

  /** The keys of the status table. */
  function StatusOf(key: string): (r: Option<Status>)
    ensures r.Some? <==> key in {"reviewing", "approved", "rejected"}
  {
    if key == "reviewing" then Some(Reviewing)
    else if key == "approved" then Some(Approved)
    else if key == "rejected" then Some(Rejected)
    else None
  }

  /** The values of the status table. */
  function Verdict(st: Status): string {
    match st
    case Reviewing => "Взята в ревью."
    case Approved => "Ревьюеру всё понравилось, можно приступать к следующему уроку."
    case Rejected => "К сожалению в работе нашлись ошибки."
  }

  /** The message of the PraktikumException raised for a record without a name. */
  const NoHomework: string := "Задания не обнаружены"

  const Opening: string := "У вас проверили работу \""
  const Closing: string := "\"!\n\n"

  /** The notification template. */
  function Notice(name: string, st: Status): (r: string)
    ensures |r| == |Opening| + |name| + |Tail(st)|
    ensures r[..|Opening|] == Opening && r[|Opening|..|r| - |Tail(st)|] == name
    ensures EndsWith(r, st)
  {
    Framed(Opening, name, Tail(st));
    Opening + name + Tail(st)
  }

  /** What follows the name in a notice. */
  function Tail(st: Status): string {
    Closing + Verdict(st)
  }

  /** The status of an object record that names its work and carries a status the table knows. */
  predicate KnownRecord(h: Json) {
    h.Obj? && "homework_name" in h.fields && "status" in h.fields
    && h.fields["status"].Str? && StatusOf(h.fields["status"].s).Some?
  }

  /**
   * `parse_homework_status(homework)`. Each Python membership test and lookup is one
   * step that may raise; an unknown status reaches the second table lookup and
   * raises KeyError, and a missing status leaves the local unassigned (NameError).
   */
  function ParseHomeworkStatus(h: Json): (r: Result<string, Raised>)
    ensures r.Success? <==> KnownRecord(h)
    ensures r.Success? ==>
      r.value == Notice(Render(h.fields["homework_name"]), StatusOf(h.fields["status"].s).value)
    ensures r.Failure? && r.error.Praktikum? ==> r.error.message == NoHomework
    ensures r.Failure? ==> !r.error.Telegram?
    ensures h.Obj? ==> (r == Failure(Praktikum(NoHomework)) <==> "homework_name" !in h.fields)
    ensures h.Obj? && "homework_name" in h.fields && "status" !in h.fields ==>
      r == Failure(Builtin(NameError))
    ensures (h.Obj? && "homework_name" in h.fields && "status" in h.fields
             && h.fields["status"].Str? && StatusOf(h.fields["status"].s).None?) ==>
      r == Failure(Builtin(KeyError))
  {
    match Contains(h, "homework_name")
    case Failure(e) => Failure(Builtin(e))
    case Success(named) =>
      if !named then Failure(Praktikum(NoHomework))
      else
        match Subscript(h, "homework_name")
        case Failure(e) => Failure(Builtin(e))
        case Success(name) =>
          match Contains(h, "status")
          case Failure(e) => Failure(Builtin(e))
          case Success(hasStatus) =>
            if !hasStatus then Failure(Builtin(NameError))
            else
              match Subscript(h, "status")
              case Failure(e) => Failure(Builtin(e))
              case Success(status) =>
                // `status in statuses` hashes the value: a list or a dict cannot be hashed
                if status.Arr? || status.Obj? then Failure(Builtin(TypeError))
                else if status.Str? && StatusOf(status.s).Some? then
                  Success(Notice(Render(name), StatusOf(status.s).value))
                else Failure(Builtin(KeyError))
  }

  /** Reads a notice back: the name between the quotes and the status whose verdict closes it. */
  function ReadNotice(text: string): (r: Option<(string, Status)>)
    ensures r.Some? ==> Notice(r.value.0, r.value.1) == text
  {
    if |text| < |Opening| || text[..|Opening|] != Opening then None
    else if EndsWith(text, Reviewing) then Some((NameIn(text, Reviewing), Reviewing))
    else if EndsWith(text, Approved) then Some((NameIn(text, Approved), Approved))
    else if EndsWith(text, Rejected) then Some((NameIn(text, Rejected), Rejected))
    else None
  }

  /** `text` is long enough for the template and closes with the verdict of `st`. */
  predicate EndsWith(text: string, st: Status) {
    |text| >= |Opening| + |Tail(st)| && text[|text| - |Tail(st)|..] == Tail(st)
  }

  function NameIn(text: string, st: Status): (name: string)
    requires EndsWith(text, st) && text[..|Opening|] == Opening
    ensures Notice(name, st) == text
  {
    var name := text[|Opening|..|text| - |Tail(st)|];
    assert text == text[..|Opening|] + name + text[|text| - |Tail(st)|..];
    name
  }

  /** The second-to-last character of each verdict tells the three apart. */
  lemma VerdictsDiffer(st: Status, other: Status)
    ensures |Verdict(st)| >= 2
    ensures st != other ==> Verdict(st)[|Verdict(st)| - 2] != Verdict(other)[|Verdict(other)| - 2]
  {
  }

  /** A text that closes with the verdict of `st` shares that verdict's second-to-last character. */
  lemma EndingCharacter(text: string, st: Status)
    requires |text| >= 2
    ensures EndsWith(text, st) ==> text[|text| - 2] == Verdict(st)[|Verdict(st)| - 2]
  {
    if EndsWith(text, st) {
      var tail := Tail(st);
      assert text[|text| - |tail|..][|tail| - 2] == tail[|tail| - 2];
    }
  }

  /** Every notice names its work and its status unambiguously: reading it back recovers both. */
  lemma {:induction false} NoticeRoundTrip(name: string, st: Status)
    ensures ReadNotice(Notice(name, st)) == Some((name, st))
  {
    var text := Notice(name, st);
    Framed(Opening, name, Tail(st));
    if st != Reviewing { OnlyOwnEnding(text, st, Reviewing); }
    if st != Approved { OnlyOwnEnding(text, st, Approved); }
    assert NameIn(text, st) == name;
  }

  /** A text closing with the verdict of `st` does not close with any other verdict. */
  lemma OnlyOwnEnding(text: string, st: Status, other: Status)
    requires EndsWith(text, st) && other != st
    ensures !EndsWith(text, other)
  {
    VerdictsDiffer(st, other);
    EndingCharacter(text, st);
    EndingCharacter(text, other);
  }

  /** The three parts of `a + n + b` can be cut back out by their lengths. */
  lemma Framed(a: string, n: string, b: string)
    ensures var t := a + n + b;
      t[..|a|] == a && t[|t| - |b|..] == b && t[|a|..|t| - |b|] == n
  {
  }

  /** Two known records produce the same notice only for the same rendered name and status. */
  lemma NoticeDeterminesRecord(h1: Json, h2: Json)
    requires KnownRecord(h1) && KnownRecord(h2)
    ensures ParseHomeworkStatus(h1) == ParseHomeworkStatus(h2) <==>
      Render(h1.fields["homework_name"]) == Render(h2.fields["homework_name"])
      && h1.fields["status"] == h2.fields["status"]
  {
    NoticeRoundTrip(Render(h1.fields["homework_name"]), StatusOf(h1.fields["status"].s).value);
    NoticeRoundTrip(Render(h2.fields["homework_name"]), StatusOf(h2.fields["status"].s).value);
  }
}
