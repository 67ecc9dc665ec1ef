/**
 * The interactive y/n prompt of internal/helpers.go and the scripted user of
 * internal/testutils/testutils.go that answers it. Every line the user
 * types comes from a MockUserInput; once its responses run out it answers
 * "n" forever.
 */
module UserInput {
  import opened Wrappers
  import opened GoStrings

  /** A user who answers with the configured responses in order, then "n". */
  class MockUserInput {
    const responses: seq<string>
    var index: nat

    predicate Valid()
      reads this
    {
      index <= |responses|
    }

    /** The responses not handed out yet. */
    function Pending(): (r: seq<string>)
      reads this
      requires Valid()
      ensures |r| == |responses| - index
      ensures forall k :: 0 <= k < |r| ==> r[k] == responses[index + k]
    {
      responses[index..]
    }

    /** NewMockUserInput: starts at the first response. */
    constructor (responses: seq<string>)
      ensures this.responses == responses && index == 0
      ensures Valid() && Pending() == responses
    {
      this.responses := responses;
      index := 0;
    }

    /**
     * GetResponse: the next configured response, advancing by one; once the
     * responses are exhausted, "n" without advancing.
     */
    method GetResponse() returns (r: string)
      requires Valid()
      modifies this
      ensures Valid()
      ensures old(index) < |responses| ==> r == responses[old(index)] && index == old(index) + 1
      ensures old(index) >= |responses| ==> r == "n" && index == old(index)
      ensures old(Pending()) != [] ==> r == old(Pending())[0] && Pending() == old(Pending())[1..]
      ensures old(Pending()) == [] ==> r == "n" && Pending() == []
    {
      if index >= |responses| {
        return "n";
      }
      r := responses[index];
      index := index + 1;
    }
  }

  /** A single token: non-empty and free of white space. */
  predicate SingleToken(t: string) {
    t != [] && forall i :: 0 <= i < |t| ==> !IsSpace(t[i])
  }

  /**
   * fmt.Scanln into one string: the single white-space separated token on
   * the line, or a read error when the line holds no token or more than one.
   */
  function ScanToken(line: string): (r: Option<string>)
    ensures r.Some? ==> SingleToken(r.value) && r.value == TrimSpace(line)
    ensures r.None? ==> Blank(line) || !SingleToken(TrimSpace(line))
  {
    var token := TrimSpace(line);
    if SingleToken(token) then Some(token) else None
  }

  /** How one typed line is taken by the prompt. */
  datatype Answer = Yes | No | Unclear | Unreadable

  function Classify(line: string): (r: Answer)
    ensures r == Unreadable <==> ScanToken(line).None?
  {
    match ScanToken(line)
    case None => Unreadable
    case Some(token) =>
      if token == "y" || token == "Y" then Yes
      else if token == "n" || token == "N" then No
      else Unclear
  }

  /** A scanned token has no surrounding space, so trimming it again changes nothing. */
  lemma TrimToken(token: string)
    requires SingleToken(token)
    ensures TrimSpace(token) == token
  {
    assert TrimLeft(token) == token;
    assert TrimRight(token) == token;
  }

  /**
   * strings.ToLower(strings.TrimSpace(token)) equals a lower-case letter
   * exactly when the token is that letter in either case, which is how
   * Classify reads the token.
   */
  lemma LowerToken(token: string, lower: char, upper: char)
    requires SingleToken(token)
    requires 'A' <= upper <= 'Z' && lower as int == upper as int + 32
    ensures ToLower(TrimSpace(token)) == [lower] <==> token == [lower] || token == [upper]
  {
    TrimToken(token);
    var low := ToLower(token);
    if low == [lower] {
      assert LowerChar(token[0]) == lower;
    }
    if token == [lower] || token == [upper] {
      assert low[0] == lower;
    }
  }

  /** Classify takes a line as the prompt reads it: scanned, trimmed and lower-cased. */
  lemma ClassifyAsScanned(line: string)
    ensures match ScanToken(line)
      case None => Classify(line) == Unreadable
      case Some(token) =>
        var confirm := ToLower(TrimSpace(token));
        Classify(line) == if confirm == "y" then Yes else if confirm == "n" then No else Unclear
  {
    match ScanToken(line)
    case None =>
    case Some(token) =>
      LowerToken(token, 'y', 'Y');
      LowerToken(token, 'n', 'N');
  }

  /** What the prompt makes of a run of classified lines: its answer and how many lines it read. */
  datatype Decision = Decision(yes: bool, read: nat)

  /**
   * The prompt over classified lines: an unclear line is asked again; a
   * read error or "n" gives no, "y" gives yes; running out of lines gives
   * no with every line read.
   */
  function Prompt(answers: seq<Answer>): (d: Decision)
    ensures d.read <= |answers|
    ensures answers != [] ==> d.read >= 1
  {
    if answers == [] then Decision(false, 0)
    else match answers[0]
      case Yes => Decision(true, 1)
      case No => Decision(false, 1)
      case Unreadable => Decision(false, 1)
      case Unclear =>
        var d := Prompt(answers[1..]);
        Decision(d.yes, d.read + 1)
  }

  /** Each pending response as the prompt takes it. */
  function Classified(pending: seq<string>): (r: seq<Answer>)
    ensures |r| == |pending|
  {
    if pending == [] then [] else [Classify(pending[0])] + Classified(pending[1..])
  }

  /** The prompt takes the i-th pending response by its own class. */
  lemma {:induction false} ClassifiedAt(pending: seq<string>, i: nat)
    requires i < |pending|
    ensures Classified(pending)[i] == Classify(pending[i])
  {
    if i > 0 {
      ClassifiedAt(pending[1..], i - 1);
    }
  }

  /** The outcome of one prompt and the responses left afterwards. */
  datatype Confirmation = Confirmation(yes: bool, rest: seq<string>)

  /**
   * The prompt over the pending responses: the lines it reads are
   * consumed, and once they run out the mock's "n" ends it.
   */
  function Confirm(pending: seq<string>): (c: Confirmation)
    ensures c.rest == [] || |c.rest| < |pending|
    ensures c.rest == pending[|pending| - |c.rest|..]
  {
    var d := Prompt(Classified(pending));
    Confirmation(d.yes, pending[d.read..])
  }

  /** `rest` is what is left of `pending` once some responses were taken from its front. */
  predicate Answered(pending: seq<string>, rest: seq<string>) {
    |rest| <= |pending| && rest == pending[|pending| - |rest|..]
  }

  /** Answering some responses and then some more still takes them from the front. */
  lemma AnsweredTrans(a: seq<string>, b: seq<string>, c: seq<string>)
    requires Answered(a, b) && Answered(b, c)
    ensures Answered(a, c)
  {
    assert c == a[|a| - |b|..][|b| - |c|..];
  }

  /** The mock's fallback answer ends the prompt with no. */
  lemma DefaultAnswerIsNo()
    ensures Classify("n") == No
    ensures Classify("y") == Yes && Classify("Y") == Yes
  {
    LetterIsItsOwnToken('n');
    LetterIsItsOwnToken('y');
    LetterIsItsOwnToken('Y');
  }

  lemma LetterIsItsOwnToken(c: char)
    requires 'a' <= c <= 'z' || 'A' <= c <= 'Z'
    ensures ScanToken([c]) == Some([c])
  {
    assert !IsSpace(c);
    assert TrimLeft([c]) == [c];
    assert TrimRight([c]) == [c];
  }

  /** Index of the line that settles the prompt: the first one that is not Unclear. */
  predicate SettledAt(answers: seq<Answer>, k: nat)
  {
    k < |answers| && answers[k] != Unclear
    && forall j :: 0 <= j < k ==> answers[j] == Unclear
  }

  /** Some line settles the prompt, and it reads as y. */
  ghost predicate SettledYes(answers: seq<Answer>) {
    exists k: nat :: SettledAt(answers, k) && answers[k] == Yes
  }

  /** No line settles the prompt: every one of them is asked again. */
  ghost predicate NeverSettled(answers: seq<Answer>) {
    forall k: nat :: !SettledAt(answers, k)
  }

  /**
   * The prompt answers yes exactly when some line settles it and that line
   * reads as y; it then reads up to and including that line, and every
   * line when none settles it.
   */
  lemma {:induction false} PromptIsFirstDecisiveAnswer(answers: seq<Answer>)
    ensures Prompt(answers).yes <==> SettledYes(answers)
    ensures forall k: nat :: SettledAt(answers, k) ==> Prompt(answers).read == k + 1
    ensures NeverSettled(answers) ==> Prompt(answers) == Decision(false, |answers|)
  {
    if answers == [] {
      assert !SettledYes(answers);
    } else if answers[0] != Unclear {
      assert SettledAt(answers, 0);
      forall k: nat | SettledAt(answers, k)
        ensures k == 0
      {
      }
      assert SettledYes(answers) <==> answers[0] == Yes;
    } else {
      var tail := answers[1..];
      PromptIsFirstDecisiveAnswer(tail);
      forall k: nat | SettledAt(answers, k)
        ensures k >= 1 && SettledAt(tail, k - 1)
      {
        assert k != 0;
        forall j | 0 <= j < k - 1
          ensures tail[j] == Unclear
        {
          assert tail[j] == answers[j + 1];
        }
      }
      forall k: nat | SettledAt(tail, k)
        ensures SettledAt(answers, k + 1)
      {
        forall j | 0 <= j < k + 1
          ensures answers[j] == Unclear
        {
          if j > 0 { assert answers[j] == tail[j - 1]; }
        }
      }
      if SettledYes(answers) {
        var k: nat :| SettledAt(answers, k) && answers[k] == Yes;
        assert SettledAt(tail, k - 1) && tail[k - 1] == Yes;
      }
      if SettledYes(tail) {
        var k: nat :| SettledAt(tail, k) && tail[k] == Yes;
        assert SettledAt(answers, k + 1) && answers[k + 1] == Yes;
      }
      if NeverSettled(answers) {
        assert NeverSettled(tail);
      }
    }
  }

  /**
   * Over the pending responses: yes exactly when the first response that
   * is not asked again reads y; the responses up to it are consumed, and
   * all of them when there is none.
   */
  lemma ConfirmIsFirstDecisiveAnswer(pending: seq<string>)
    ensures var answers := Classified(pending);
      && (Confirm(pending).yes <==> SettledYes(answers))
      && (forall k: nat :: SettledAt(answers, k) ==> Confirm(pending).rest == pending[k + 1..])
      && (NeverSettled(answers) ==> Confirm(pending) == Confirmation(false, []))
  {
    var answers := Classified(pending);
    var d := Prompt(answers);
    PromptIsFirstDecisiveAnswer(answers);
    assert Confirm(pending).yes == d.yes && Confirm(pending).rest == pending[d.read..];
    forall k: nat | SettledAt(answers, k)
      ensures Confirm(pending).rest == pending[k + 1..]
    {
      assert d.read == k + 1;
    }
    if NeverSettled(answers) {
      assert d == Decision(false, |pending|);
      assert pending[|pending|..] == [];
    }
  }

  /** One round of the prompt over the class of the line it reads. */
  lemma AnswerStep(before: seq<string>, line: string)
    requires before != [] ==> line == before[0]
    requires before == [] ==> line == "n"
    ensures Classify(line) == Unclear ==> before != [] && Confirm(before) == Confirm(before[1..])
    ensures Classify(line) != Unclear ==>
      Confirm(before) == Confirmation(Classify(line) == Yes, if before == [] then [] else before[1..])
  {
    if before == [] {
      DefaultAnswerIsNo();
    } else {
      var answers := Classified(before);
      assert answers == [Classify(line)] + Classified(before[1..]);
      assert answers[0] == Classify(line) && answers[1..] == Classified(before[1..]);
      if Classify(line) == Unclear {
        var d := Prompt(Classified(before[1..]));
        assert Prompt(answers) == Decision(d.yes, d.read + 1);
        assert before[d.read + 1..] == before[1..][d.read..];
      } else {
        assert Prompt(answers).read == 1;
      }
    }
  }

  /**
   * ConfirmWithUser: reads lines until one is y or n (ignoring case and
   * surrounding space); a read error stops the prompt with no.
   */
  method ConfirmWithUser(user: MockUserInput) returns (yes: bool)
    requires user.Valid()
    modifies user
    ensures user.Valid()
    ensures yes == Confirm(old(user.Pending())).yes
    ensures user.Pending() == Confirm(old(user.Pending())).rest
  {
    var confirm: string;
    while true
      invariant user.Valid()
      invariant Confirm(user.Pending()) == Confirm(old(user.Pending()))
      decreases |user.Pending()|
    {
      ghost var before := user.Pending();
      var line := user.GetResponse();
      AnswerStep(before, line);
      ClassifyAsScanned(line);
      var token := ScanToken(line);
      if token.None? {
        return false;
      }
      confirm := ToLower(TrimSpace(token.value));
      if confirm == "y" || confirm == "n" {
        break;
      }
    }
    yes := confirm == "y";
  }
}
