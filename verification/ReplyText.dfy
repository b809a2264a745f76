/** The texts the classifier gate may send by itself (core/classifier/service.go:690-800, 826-840): what a valid
    one is, and that the fixed ones are valid. */
module ReplyText {
  import opened Text

  datatype Social = Help | Morning | Afternoon | Evening | Greeting | Goodbye | Praise | Laugh | Gratitude

  /** Fixed replies by name; `Worded` holds any other text. */
  datatype Reply = NoReply | Clarification | SourceWriteRefusal | LocationQuestion | SocialReply(kind: Social)
    | Worded(text: string)

  function TextOf(reply: Reply): string {
    match reply
    case NoReply => ""
    case Clarification => "I'm here\U{2014}what would you like me to help with?"
    case SourceWriteRefusal =>
      "I can't make source-code" + " changes from Slack," + " but I can help" + " investigate or plan the work" + "."
    case LocationQuestion => "I can check\U{2014}what location should I use?"
    case SocialReply(Help) => "Happy to help!"
    case SocialReply(Morning) => "Morning!"
    case SocialReply(Afternoon) => "Good afternoon!"
    case SocialReply(Evening) => "Good evening!"
    case SocialReply(Greeting) => "Hey!"
    case SocialReply(Goodbye) => "See you!"
    case SocialReply(Praise) => "Thanks!"
    case SocialReply(Laugh) => "\U{1F604}"
    case SocialReply(Gratitude) => "You're welcome!"
    case Worded(text) => text
  }

  function Lower(s: string): string {
    seq(|s|, i requires 0 <= i < |s| => LowerChar(s[i]))
  }

  function LowerChar(c: char): char {
    if 'A' <= c <= 'Z' then (c as int + 32) as char else c
  }

  predicate Contains(s: string, part: string) {
    exists i: nat :: i <= |s| && HasAt(s, part, i)
  }

  predicate HasAt(s: string, part: string, i: nat) {
    i + |part| <= |s| && forall k :: 0 <= k < |part| ==> s[i + k] == part[k]
  }

  /** Formatting, addressing and line breaks. */
  predicate IsMark(c: char) {
    c == '<' || c == '>' || c == '`' || c == '*' || c == '_' || c == '~' || c == '@' || c == '#' || c == '\r'
      || c == '\n' || c == '\t'
  }

  /** One trimmed line of at most 240 characters without links, formatting or addressing. */
  predicate ValidText(s: string) {
    && s == Trim(s) && s != "" && |s| <= 240 && (forall c :: c in s ==> !IsMark(c))
    && !Contains(Lower(s), "http://") && !Contains(Lower(s), "https://") && !Contains(Lower(s), "www.")
  }

  /** No text with a link may be sent. */
  lemma SentTextHasNoLink(s: string, part: string, i: nat)
    requires ValidText(s) && part in ["http://", "https://", "www."]
    ensures !HasAt(Lower(s), part, i)
  {
    NowhereIn(Lower(s), part, i);
  }

  /** In numbers: no text longer than 240 characters and none with formatting or addressing may be sent. */
  lemma SentTextIsPlain(s: string, i: nat)
    requires ValidText(s)
    ensures 1 <= |s| <= 240 && s == Trim(s)
    ensures i < |s| ==> s[i] !in ['<', '>', '`', '*', '_', '~', '@', '#', '\r', '\n', '\t']
  {
    if i < |s| {
      assert s[i] in s;
    }
  }

  lemma NowhereIn(s: string, part: string, i: nat)
    requires !Contains(s, part)
    ensures !HasAt(s, part, i)
  {
    if i <= |s| {
      assert !HasAt(s, part, i);
    }
  }

  /** The fixed replies are valid, which `FixedRepliesAreValid` shows. */
  predicate ValidReply(reply: Reply) {
    match reply
    case NoReply => false
    case Worded(text) => ValidText(text)
    case _ => true
  }

  predicate Given(reply: Reply) {
    !reply.NoReply? && reply != Worded("")
  }

  // ---------------------------------------------------------------- the fixed replies

  lemma Matched(s: string, part: string, i: nat, k: nat)
    requires HasAt(Lower(s), part, i) && k < |part|
    ensures i + k < |s| && LowerChar(s[i + k]) == part[k] && s[i + k] in s
  {
    assert Lower(s)[i + k] == part[k];
  }

  /** Nothing with a slash, or a full stop that is not last, occurs in a text without one. */
  lemma NoSuchPart(s: string, part: string, k: nat)
    requires k < |part| && part[k] in {'/', '.'} && forall c :: c in s ==> c != part[k]
    ensures !Contains(Lower(s), part)
  {
    forall i: nat | i <= |Lower(s)|
      ensures !HasAt(Lower(s), part, i)
    {
      if HasAt(Lower(s), part, i) {
        Matched(s, part, i, k);
      }
    }
  }

  /** A full stop at the very end, after a character other than w, makes no address. */
  lemma NoAddress(s: string, part: string)
    requires |part| == 4 && part[2] == 'w' && part[3] == '.'
    requires |s| >= 2 && s[|s| - 2] !in {'w', 'W'} && forall i :: 0 <= i < |s| - 1 ==> s[i] != '.'
    ensures !Contains(Lower(s), part)
  {
    forall i: nat | i <= |Lower(s)|
      ensures !HasAt(Lower(s), part, i)
    {
      if HasAt(Lower(s), part, i) {
        Matched(s, part, i, 3);
        Matched(s, part, i, 2);
      }
    }
  }

  /** Letters, spaces, some punctuation, and everything beyond ASCII. */
  predicate PlainChar(c: char) {
    'a' <= c <= 'z' || 'A' <= c <= 'Z' || c > '\U{7F}' || c == ' ' || c == '\'' || c == ',' || c == '-'
      || c == '!' || c == '?'
  }

  lemma PlainTextIsValid(s: string)
    requires 0 < |s| <= 240 && !IsSpace(s[0]) && !IsSpace(s[|s| - 1])
    requires forall c :: c in s ==> PlainChar(c) || c == '.'
    requires '.' !in s || (|s| >= 2 && s[|s| - 2] !in {'w', 'W'} && forall i :: 0 <= i < |s| - 1 ==> s[i] != '.')
    ensures ValidText(s)
  {
    NoSuchPart(s, "http://", 5);
    NoSuchPart(s, "https://", 6);
    if '.' !in s {
      NoSuchPart(s, "www.", 3);
    } else {
      NoAddress(s, "www.");
    }
  }

  lemma PlainSentence(front: string, last: char)
    requires 0 < |front| < 240 && !IsSpace(front[0]) && !IsSpace(last) && front[|front| - 1] !in {'w', 'W'}
    requires (PlainChar(last) || last == '.') && forall c :: c in front ==> PlainChar(c)
    ensures ValidText(front + [last])
  {
    var s := front + [last];
    assert s[0] == front[0] && s[|s| - 2] == front[|front| - 1]
      && forall i :: 0 <= i < |s| - 1 ==> s[i] == front[i] && s[i] in front;
    PlainTextIsValid(s);
  }

  predicate Plain(s: string) {
    forall c :: c in s ==> PlainChar(c)
  }

  lemma SentenceIsValid(front: string, last: char, s: string)
    requires s == front + [last] && Plain(front) && 0 < |front| < 240 && !IsSpace(front[0])
    requires !IsSpace(last) && (PlainChar(last) || last == '.') && front[|front| - 1] !in {'w', 'W'}
    ensures ValidText(s)
  {
    PlainSentence(front, last);
  }

  lemma PlainParts(a: string, b: string)
    requires Plain(a) && Plain(b)
    ensures Plain(a + b)
  {
  }

  lemma ClarificationIsPlain(a: string, b: string)
    requires a == "I'm here\U{2014}what would" && b == " you like me to help with"
    ensures Plain(a) && Plain(b)
  {
  }

  lemma QuestionIsPlain(a: string, b: string)
    requires a == "I can check\U{2014}what" && b == " location should I use"
    ensures Plain(a) && Plain(b)
  {
  }

  lemma RefusalIsPlain(a: string, b: string, c: string, d: string)
    requires a == "I can't make source-code" && b == " changes from Slack,"
    requires c == " but I can help" && d == " investigate or plan the work"
    ensures Plain(a + b + c + d)
  {
    RefusalPartIsPlain(a, b);
    OfferIsPlain(c, d);
    PlainParts(a, b);
    PlainParts(a + b, c);
    PlainParts(a + b + c, d);
  }

  lemma RefusalPartIsPlain(a: string, b: string)
    requires a == "I can't make source-code" && b == " changes from Slack,"
    ensures Plain(a) && Plain(b)
  {
  }

  lemma OfferIsPlain(c: string, d: string)
    requires c == " but I can help" && d == " investigate or plan the work"
    ensures Plain(c) && Plain(d)
  {
  }

  lemma ClarificationIsValid(a: string, b: string, s: string)
    requires a == "I'm here\U{2014}what would" && b == " you like me to help with" && s == TextOf(Clarification)
    ensures ValidText(s)
  {
    ClarificationIsPlain(a, b);
    PlainParts(a, b);
    SentenceIsValid(a + b, '?', s);
  }

  lemma QuestionIsValid(a: string, b: string, s: string)
    requires a == "I can check\U{2014}what" && b == " location should I use" && s == TextOf(LocationQuestion)
    ensures ValidText(s)
  {
    QuestionIsPlain(a, b);
    PlainParts(a, b);
    SentenceIsValid(a + b, '?', s);
  }

  lemma RefusalIsValid(a: string, b: string, c: string, d: string, s: string)
    requires a == "I can't make source-code" && b == " changes from Slack,"
    requires c == " but I can help" && d == " investigate or plan the work" && s == a + b + c + d + "."
    ensures ValidText(s)
  {
    var front := a + b + c + d;
    RefusalIsPlain(a, b, c, d);
    assert d[|d| - 1] == 'k' && front[|front| - 1] == d[|d| - 1] && front[0] == a[0];
    SentenceIsValid(front, '.', s);
  }

  lemma SocialTextIsPlain(kind: Social, s: string)
    requires s == TextOf(SocialReply(kind))
    ensures Plain(s) && s != "" && |s| <= 20 && !IsSpace(s[0]) && !IsSpace(s[|s| - 1])
  {
  }

  /** Each fixed reply passes the check it would have to pass. */
  lemma FixedRepliesAreValid(reply: Reply)
    requires !reply.NoReply? && !reply.Worded?
    ensures ValidText(TextOf(reply))
  {
    match reply
    case Clarification =>
      ClarificationIsValid("I'm here\U{2014}what would", " you like me to help with", TextOf(reply));
    case LocationQuestion => QuestionIsValid("I can check\U{2014}what", " location should I use", TextOf(reply));
    case SourceWriteRefusal =>
      RefusalIsValid("I can't make source-code", " changes from Slack,", " but I can help",
                     " investigate or plan the work", TextOf(reply));
    case SocialReply(kind) =>
      SocialTextIsPlain(kind, TextOf(reply));
      PlainTextIsValid(TextOf(reply));
  }
}
