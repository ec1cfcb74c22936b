/** Input validation and sanitising: the e-mail recogniser, the password
    rules, the text sanitiser, the assessment-record sanitiser, and the
    per-identifier sliding-window rate limiter. */
module Validation {
  import opened Wrappers
  import opened Json
  import opened JsText
  import Lists

  // ---------------------------------------------------------------------
  // E-mail

  /** Characters allowed in the local part. */
  predicate LocalChar(c: char)
  {
    IsAlnum(c) || c == '.' || c == '!' || c == '#' || c == '$' || c == '%' || c == '&'
    || c == '\'' || c == '*' || c == '+' || c == '/' || c == '=' || c == '?' || c == '^'
    || c == '_' || c == '`' || c == '{' || c == '|' || c == '}' || c == '~' || c == '-'
  }

  predicate LabelChar(c: char) { IsAlnum(c) || c == '-' }

  /** A domain label: 1 to 63 letters, digits or hyphens, starting and ending
      with a letter or digit (section 2.3.4 of RFC 1035). */
  predicate ValidLabel(l: string)
  {
    1 <= |l| <= 63 && (forall i :: 0 <= i < |l| ==> LabelChar(l[i]))
    && IsAlnum(l[0]) && IsAlnum(l[|l| - 1])
  }

  predicate ValidLocal(s: string)
  {
    |s| >= 1 && forall i :: 0 <= i < |s| ==> LocalChar(s[i])
  }

  /** Dot-separated labels, each valid. */
  predicate ValidDomain(d: string)
  {
    forall l :: l in Split(d, '.') ==> ValidLabel(l)
  }

  /** The address pattern: a local part, one '@', a domain. */
  predicate EmailPattern(s: string)
  {
    exists i :: 0 <= i < |s| && s[i] == '@' && ValidLocal(s[..i]) && ValidDomain(s[i + 1..])
  }

  /** `validateEmail`: a non-empty string of at most 254 characters that
      matches the address pattern. */
  function ValidateEmail(v: Value): (ok: bool)
    ensures ok ==> v.Str? && 1 <= |v.s| <= 254
  {
    v.Str? && v.s != "" && EmailPattern(v.s) && |v.s| <= 254
  }

  lemma DomainHasNoAt(d: string)
    requires ValidDomain(d)
    ensures '@' !in d
  {
    var labels := Split(d, '.');
    assert Join(labels, '.') == d by { JoinSplit(d, '.'); }
    forall j | 0 <= j < |d| ensures d[j] != '@' {
      JoinMembership(labels, '.', d[j]);
      if d[j] != '.' {
        var k :| 0 <= k < |labels| && d[j] in labels[k];
        LabelHasNoAt(labels[k], d[j]);
      }
    }
  }

  lemma LabelHasNoAt(l: string, c: char)
    requires ValidLabel(l) && c in l
    ensures c != '@'
  {
    var m :| 0 <= m < |l| && l[m] == c;
    assert LabelChar(l[m]);
  }

  lemma LocalHasNoAt(l: string)
    requires ValidLocal(l)
    ensures '@' !in l
  {
    forall j | 0 <= j < |l| ensures l[j] != '@' {
      assert LocalChar(l[j]);
    }
  }

  /** An accepted address has exactly one '@'. */
  lemma {:induction false} EmailHasOneAt(s: string)
    requires ValidateEmail(Str(s))
    ensures Occurrences(s, '@') == 1
  {
    var i :| 0 <= i < |s| && s[i] == '@' && ValidLocal(s[..i]) && ValidDomain(s[i + 1..]);
    var local, domain := s[..i], s[i + 1..];
    assert s == local + ['@'] + domain;
    LocalHasNoAt(local);
    DomainHasNoAt(domain);
    OccurrencesConcat(local + ['@'], domain, '@');
    OccurrencesConcat(local, ['@'], '@');
    OccurrencesAbsent(local, '@');
    OccurrencesAbsent(domain, '@');
    assert Occurrences(['@'], '@') == 1;
  }

  // ---------------------------------------------------------------------
  // Passwords

  datatype PasswordCheck = PasswordCheck(isValid: bool, message: string)

  const SpecialChars: string := "!@#$%^&*()_+-=[]{};':\"\\|,.<>/?"

  predicate HasUpper(s: string) { exists i :: 0 <= i < |s| && IsUpper(s[i]) }
  predicate HasLower(s: string) { exists i :: 0 <= i < |s| && IsLower(s[i]) }
  predicate HasDigit(s: string) { exists i :: 0 <= i < |s| && IsDigit(s[i]) }
  predicate HasSpecial(s: string) { exists i :: 0 <= i < |s| && s[i] in SpecialChars }

  /** `validatePassword`: the first failing rule, in the order required, too
      short, too long, composition. */
  function ValidatePassword(v: Value): PasswordCheck
  {
    if !v.Str? || v.s == "" then PasswordCheck(false, "Password is required")
    else if |v.s| < 8 then PasswordCheck(false, "Password must be at least 8 characters long")
    else if |v.s| > 128 then PasswordCheck(false, "Password must be less than 128 characters")
    else if !HasUpper(v.s) || !HasLower(v.s) || !HasDigit(v.s) || !HasSpecial(v.s) then
      PasswordCheck(false, "Password must contain uppercase, lowercase, number, and special character")
    else PasswordCheck(true, "Password is strong")
  }

  /** A password is accepted exactly when it has 8 to 128 characters and all
      four character classes; only an accepted one is reported strong. */
  lemma PasswordValidIff(v: Value)
    ensures ValidatePassword(v).isValid <==>
      v.Str? && 8 <= |v.s| <= 128 && HasUpper(v.s) && HasLower(v.s) && HasDigit(v.s) && HasSpecial(v.s)
    ensures ValidatePassword(v).isValid <==> ValidatePassword(v).message == "Password is strong"
  {
  }

  // ---------------------------------------------------------------------
  // Text sanitising

  /** `.replace(/[<>]/g, '')` */
  function RemoveAngles(s: string): (r: string)
    ensures |r| <= |s|
    ensures '<' !in r && '>' !in r
    ensures forall c :: c in r ==> c in s
    ensures ('<' in s || '>' in s) ==> |r| < |s|
    ensures ('<' !in s && '>' !in s) ==> r == s
  {
    if s == [] then []
    else (if s[0] == '<' || s[0] == '>' then [] else [s[0]]) + RemoveAngles(s[1..])
  }

  const Protocol: string := "javascript:"

  /** `a` equals the lower-case text `b` when ASCII case is ignored. */
  predicate EqualsIgnoringCase(a: string, b: string)
  {
    if a == [] then b == []
    else b != [] && LowerChar(a[0]) == b[0] && EqualsIgnoringCase(a[1..], b[1..])
  }

  lemma {:induction false} EqualsIgnoringCaseAt(a: string, b: string, k: nat)
    requires EqualsIgnoringCase(a, b) && k < |a|
    ensures k < |b| && LowerChar(a[k]) == b[k]
  {
    if k > 0 {
      EqualsIgnoringCaseAt(a[1..], b[1..], k - 1);
    }
  }

  /** A case-insensitive `javascript:` starts at `i`. */
  predicate ProtocolAt(s: string, i: nat)
  {
    i + |Protocol| <= |s| && EqualsIgnoringCase(s[i..i + |Protocol|], Protocol)
  }

  predicate HasProtocol(s: string)
  {
    exists i: nat :: i <= |s| && ProtocolAt(s, i)
  }

  lemma ProtocolShift(s: string, i: nat)
    requires s != [] && i >= 1
    ensures ProtocolAt(s, i) <==> ProtocolAt(s[1..], i - 1)
  {
    if i + |Protocol| <= |s| {
      assert s[1..][i - 1..i - 1 + |Protocol|] == s[i..i + |Protocol|];
    }
  }

  /** `.replace(/javascript:/gi, '')`: scanning left to right, each match is
      dropped and the scan resumes after it. */
  function StripProtocol(s: string): (r: string)
    ensures |r| <= |s|
    ensures forall c :: c in r ==> c in s
    decreases |s|
  {
    if ProtocolAt(s, 0) then StripProtocol(s[|Protocol|..])
    else if s == [] then []
    else [s[0]] + StripProtocol(s[1..])
  }

  /** The replacement removes something exactly when a match is present. */
  lemma {:induction false} StripProtocolShrinks(s: string)
    ensures HasProtocol(s) ==> |StripProtocol(s)| < |s|
    ensures !HasProtocol(s) ==> StripProtocol(s) == s
    decreases |s|
  {
    if ProtocolAt(s, 0) {
      assert HasProtocol(s);
    } else if s != [] {
      NoProtocolTail(s);
      StripProtocolShrinks(s[1..]);
    }
  }

  lemma NoProtocolTail(s: string)
    requires s != [] && !ProtocolAt(s, 0)
    ensures HasProtocol(s) <==> HasProtocol(s[1..])
  {
    if HasProtocol(s) {
      var i: nat :| i <= |s| && ProtocolAt(s, i);
      ProtocolShift(s, i);
    }
    if HasProtocol(s[1..]) {
      var j: nat :| j <= |s[1..]| && ProtocolAt(s[1..], j);
      ProtocolShift(s, j + 1);
    }
  }

  /** Length of the longest prefix of word characters. */
  function WordRun(s: string): (n: nat)
    ensures n <= |s|
    ensures forall j :: 0 <= j < n ==> IsWordChar(s[j])
    ensures n < |s| ==> !IsWordChar(s[n])
  {
    if s != [] && IsWordChar(s[0]) then 1 + WordRun(s[1..]) else 0
  }

  /** Length of the longest prefix of white space. */
  function SpaceRun(s: string): (n: nat)
    ensures n <= |s|
    ensures forall j :: 0 <= j < n ==> IsSpace(s[j])
    ensures n < |s| ==> !IsSpace(s[n])
  {
    if s != [] && IsSpace(s[0]) then 1 + SpaceRun(s[1..]) else 0
  }

  /** Length of the `/on\w+\s*=/i` match at the start of `s`, or 0. Word
      characters are never white space or '=', so the greedy runs never need
      to give characters back. */
  function HandlerLen(s: string): (n: nat)
    ensures n <= |s|
    ensures n > 0 ==> n >= 4 && LowerChar(s[0]) == 'o' && LowerChar(s[1]) == 'n' && s[n - 1] == '='
  {
    if |s| >= 2 && LowerChar(s[0]) == 'o' && LowerChar(s[1]) == 'n' then
      var w := WordRun(s[2..]);
      if w == 0 then 0
      else
        var sp := SpaceRun(s[2 + w..]);
        if 2 + w + sp < |s| && s[2 + w + sp] == '=' then 2 + w + sp + 1 else 0
    else 0
  }

  predicate HandlerAt(s: string, i: nat)
  {
    i <= |s| && HandlerLen(s[i..]) > 0
  }

  predicate HasHandler(s: string)
  {
    exists i: nat :: i <= |s| && HandlerAt(s, i)
  }

  lemma NoHandlerTail(s: string)
    requires s != [] && !HandlerAt(s, 0)
    ensures HasHandler(s) <==> HasHandler(s[1..])
  {
    if HasHandler(s) {
      var i: nat :| i <= |s| && HandlerAt(s, i);
      assert s[1..][i - 1..] == s[i..];
      assert HandlerAt(s[1..], i - 1);
    }
    if HasHandler(s[1..]) {
      var j: nat :| j <= |s[1..]| && HandlerAt(s[1..], j);
      assert s[1..][j..] == s[j + 1..];
      assert HandlerAt(s, j + 1);
    }
  }

  /** `.replace(/on\w+\s*=/gi, '')` */
  function StripHandlers(s: string): (r: string)
    ensures |r| <= |s|
    ensures forall c :: c in r ==> c in s
    ensures HasHandler(s) ==> |r| < |s|
    ensures !HasHandler(s) ==> r == s
    decreases |s|
  {
    if s == [] then []
    else if HandlerLen(s) > 0 then
      assert s[0..] == s && HandlerAt(s, 0);
      StripHandlers(s[HandlerLen(s)..])
    else
      assert s[0..] == s;
      NoHandlerTail(s);
      [s[0]] + StripHandlers(s[1..])
  }

  /** One pass of the three replacements, in source order. */
  function Pass(s: string): (r: string)
    ensures |r| <= |s|
    ensures '<' !in r && '>' !in r
    ensures forall c :: c in r ==> c in s
  {
    StripHandlers(StripProtocol(RemoveAngles(s)))
  }

  /** `.substring(0, n)` */
  function Truncate(s: string, n: nat): (r: string)
    ensures |r| <= n && |r| <= |s| && r == s[..|r|]
    ensures |s| <= n ==> r == s
  {
    if |s| <= n then s else s[..n]
  }

  const MaxTextLength: nat := 1000

  /** `sanitizeText` as written: one pass of each replacement. */
  function SanitizeTextAsWritten(v: Value): (r: string)
    ensures |r| <= MaxTextLength && '<' !in r && '>' !in r
    ensures !v.Str? || v.s == "" ==> r == ""
  {
    if v.Str? && v.s != "" then Truncate(Pass(Trim(v.s)), MaxTextLength) else ""
  }

  /** A character that differs from the protocol's, ignoring case, rules out a match. */
  lemma NoProtocolAt(s: string, i: nat, k: nat)
    requires i + |Protocol| <= |s| && k < |Protocol| && LowerChar(s[i + k]) != Protocol[k]
    ensures !ProtocolAt(s, i)
  {
    if EqualsIgnoringCase(s[i..i + |Protocol|], Protocol) {
      EqualsIgnoringCaseAt(s[i..i + |Protocol|], Protocol, k);
    }
  }

  /** A string shorter than the protocol holds no match. */
  lemma ShortHasNoProtocol(s: string)
    requires |s| < |Protocol|
    ensures !HasProtocol(s)
  {
  }

  /** A string without 'o' or 'O' holds no event-handler attribute. */
  lemma NoHandlerWithoutO(s: string)
    requires forall j :: 0 <= j < |s| ==> LowerChar(s[j]) != 'o'
    ensures !HasHandler(s)
  {
    forall i: nat | i <= |s| ensures !HandlerAt(s, i) {
      if i < |s| {
        assert s[i..][0] == s[i];
      }
    }
  }

  lemma {:induction false} CounterexampleTrimmed(s: string)
    requires s == "jajavascript:vascript:"
    ensures Trim(s) == s && RemoveAngles(s) == s
  {
    TrimNoEdgeSpace(s);
    CounterexampleNoAngles(s);
  }

  lemma {:induction false} CounterexampleNoAngles(s: string)
    requires s == "jajavascript:vascript:"
    ensures '<' !in s && '>' !in s
  {
    forall i | 0 <= i < |s|
      ensures s[i] != '<' && s[i] != '>'
    {
    }
  }

  /** A text with no upper-case letter equals itself ignoring case. */
  lemma {:induction false} EqualsIgnoringCaseSelf(b: string)
    requires forall k :: 0 <= k < |b| ==> !IsUpper(b[k])
    ensures EqualsIgnoringCase(b, b)
  {
    if b != [] {
      EqualsIgnoringCaseSelf(b[1..]);
    }
  }

  lemma ProtocolIsLower()
    ensures EqualsIgnoringCase(Protocol, Protocol)
  {
    forall k | 0 <= k < |Protocol|
      ensures !IsUpper(Protocol[k])
    {
    }
    EqualsIgnoringCaseSelf(Protocol);
  }

  lemma {:induction false} StripProtocolSkip(s: string)
    requires s != [] && !ProtocolAt(s, 0)
    ensures StripProtocol(s) == [s[0]] + StripProtocol(s[1..])
  {
  }

  lemma {:induction false} StripProtocolMatch(s: string)
    requires ProtocolAt(s, 0)
    ensures StripProtocol(s) == StripProtocol(s[|Protocol|..])
  {
  }

  /** Two leading characters that start no match are kept. */
  lemma {:induction false} StripProtocolSkipTwo(s: string)
    requires |s| >= 2 && !ProtocolAt(s, 0) && !ProtocolAt(s[1..], 0)
    ensures StripProtocol(s) == s[..2] + StripProtocol(s[2..])
  {
    StripProtocolSkip(s);
    StripProtocolSkip(s[1..]);
    assert s[1..][1..] == s[2..];
    var t := StripProtocol(s[2..]);
    assert StripProtocol(s) == [s[0]] + ([s[1]] + t);
    assert s[..2] == [s[0], s[1]];
    assert [s[0]] + ([s[1]] + t) == [s[0], s[1]] + t;
  }

  lemma {:induction false} StripProtocolFront(tail: string)
    requires |tail| < |Protocol|
    ensures StripProtocol(Protocol + tail) == tail
  {
    var s2 := Protocol + tail;
    assert s2[0..|Protocol|] == Protocol && s2[|Protocol|..] == tail;
    ProtocolIsLower();
    assert ProtocolAt(s2, 0);
    ShortHasNoProtocol(tail);
    StripProtocolShrinks(tail);
    StripProtocolMatch(s2);
  }

  /** Two characters that start no match, then a match, then a tail too short
      for another: only the match is removed. */
  lemma {:induction false} StripAroundProtocol(x: char, y: char, tail: string)
    requires !ProtocolAt([x, y] + Protocol + tail, 0)
    requires !ProtocolAt([y] + Protocol + tail, 0)
    requires |tail| < |Protocol|
    ensures StripProtocol([x, y] + Protocol + tail) == [x, y] + tail
  {
    var s := [x, y] + Protocol + tail;
    assert s[1..] == [y] + Protocol + tail;
    assert s[2..] == Protocol + tail && s[..2] == [x, y];
    StripProtocolSkipTwo(s);
    StripProtocolFront(tail);
  }

  lemma ProtocolSurvivesHandlers()
    ensures StripHandlers(Protocol) == Protocol
    ensures HasProtocol(Protocol)
  {
    NoHandlerWithoutO(Protocol);
    assert Protocol[0..] == Protocol && Protocol[0..|Protocol|] == Protocol;
    ProtocolIsLower();
    assert ProtocolAt(Protocol, 0);
  }

  /** Text that trimming and the angle-bracket removal leave alone, and whose
      protocol removal yields exactly `javascript:`, comes out as `javascript:`. */
  lemma {:induction false} SanitizeYieldsProtocol(s: string)
    requires s != [] && Trim(s) == s && RemoveAngles(s) == s && StripProtocol(s) == Protocol
    ensures SanitizeTextAsWritten(Str(s)) == Protocol
  {
    PassYieldsProtocol(s);
    assert Truncate(Protocol, MaxTextLength) == Protocol;
  }

  lemma PassYieldsProtocol(s: string)
    requires Trim(s) == s && RemoveAngles(s) == s && StripProtocol(s) == Protocol
    ensures Pass(Trim(s)) == Protocol
  {
    ProtocolSurvivesHandlers();
  }

  lemma {:induction false} CounterexampleShape(s: string)
    requires s == "jajavascript:vascript:"
    ensures s == ['j', 'a'] + Protocol + "vascript:"
  {
  }

  /** Removing the inner match joins "ja" and "vascript:" into a new one. */
  lemma {:induction false} StripJoinsProtocol(s: string)
    requires s == ['j', 'a'] + Protocol + "vascript:"
    ensures StripProtocol(s) == Protocol
  {
    var tail := "vascript:";
    NoProtocolAt(s, 0, 2);
    NoProtocolAt(s[1..], 0, 1);
    assert s[1..] == ['a'] + Protocol + tail;
    StripAroundProtocol('j', 'a', tail);
    assert ['j', 'a'] + tail == Protocol;
  }

  /** A single pass lets a removal join the pieces of a new `javascript:`:
      "jajavascript:vascript:" comes out as "javascript:". */
  lemma {:induction false} SanitizeLeavesProtocol(s: string)
    requires s == "jajavascript:vascript:"
    ensures SanitizeTextAsWritten(Str(s)) == Protocol
    ensures HasProtocol(SanitizeTextAsWritten(Str(s)))
  {
    CounterexampleTrimmed(s);
    CounterexampleShape(s);
    StripJoinsProtocol(s);
    SanitizeYieldsProtocol(s);
    ProtocolSurvivesHandlers();
  }

  /** Repeats the pass until nothing more is removed. */
  function Clean(s: string): (r: string)
    ensures |r| <= |s|
    ensures '<' !in r && '>' !in r && !HasProtocol(r) && !HasHandler(r)
    decreases |s|
  {
    var t := Pass(s);
    if |t| < |s| then Clean(t)
    else
      var a := RemoveAngles(s);
      var b := StripProtocol(a);
      StripProtocolShrinks(a);
      assert |StripHandlers(b)| == |s|;
      s
  }

  /** `s[..n]` keeps the `/on\w+\s*=/i` match at its start. */
  lemma HandlerLenPrefix(s: string, n: nat)
    requires n <= |s| && HandlerLen(s[..n]) > 0
    ensures HandlerLen(s) == HandlerLen(s[..n])
  {
    var p := s[..n];
    var w := WordRun(p[2..]);
    var sp := SpaceRun(p[2 + w..]);
    assert 2 + w + sp < n && p[2 + w + sp] == '=';
    forall j | 0 <= j < w
      ensures IsWordChar(s[2..][j])
    {
      assert s[2..][j] == p[2..][j];
    }
    assert s[2..][w] == p[2..][w];
    WordRunUnique(s[2..], w);
    var rest, prest := s[2 + w..], p[2 + w..];
    forall j | 0 <= j < sp
      ensures IsSpace(rest[j])
    {
      assert rest[j] == prest[j];
    }
    assert rest[sp] == prest[sp];
    SpaceRunUnique(rest, sp);
  }

  lemma {:induction false} WordRunUnique(s: string, k: nat)
    requires k <= |s| && (forall j :: 0 <= j < k ==> IsWordChar(s[j])) && (k < |s| ==> !IsWordChar(s[k]))
    ensures WordRun(s) == k
    decreases k
  {
    if k > 0 {
      WordRunUnique(s[1..], k - 1);
    }
  }

  lemma {:induction false} SpaceRunUnique(s: string, k: nat)
    requires k <= |s| && (forall j :: 0 <= j < k ==> IsSpace(s[j])) && (k < |s| ==> !IsSpace(s[k]))
    ensures SpaceRun(s) == k
    decreases k
  {
    if k > 0 {
      SpaceRunUnique(s[1..], k - 1);
    }
  }

  /** What a prefix holds, the whole string holds. */
  lemma TruncateKeepsClean(s: string, n: nat)
    requires !HasProtocol(s) && !HasHandler(s)
    ensures !HasProtocol(Truncate(s, n)) && !HasHandler(Truncate(s, n))
  {
    TruncateNoProtocol(s, n);
    TruncateNoHandler(s, n);
  }

  lemma TruncateNoProtocol(s: string, n: nat)
    requires !HasProtocol(s)
    ensures !HasProtocol(Truncate(s, n))
  {
    var t := Truncate(s, n);
    forall i: nat | i <= |t| ensures !ProtocolAt(t, i) {
      if i + |Protocol| <= |t| {
        assert t[i..i + |Protocol|] == s[i..i + |Protocol|];
        assert !ProtocolAt(s, i);
      }
    }
  }

  lemma TruncateNoHandler(s: string, n: nat)
    requires !HasHandler(s)
    ensures !HasHandler(Truncate(s, n))
  {
    var t := Truncate(s, n);
    forall i: nat | i <= |t| ensures !HandlerAt(t, i) {
      assert t[i..] == s[i..][..|t| - i];
      assert !HandlerAt(s, i);
      if HandlerLen(s[i..][..|t| - i]) > 0 {
        HandlerLenPrefix(s[i..], |t| - i);
      }
    }
  }

  /** `sanitizeText` as intended: the replacements repeated until none applies. */
  function SanitizeText(v: Value): (r: string)
    ensures |r| <= MaxTextLength && '<' !in r && '>' !in r
    ensures !HasProtocol(r) && !HasHandler(r)
    ensures !v.Str? || v.s == "" ==> r == ""
  {
    if v.Str? && v.s != "" then
      var c := Clean(Trim(v.s));
      TruncateKeepsClean(c, MaxTextLength);
      Truncate(c, MaxTextLength)
    else ""
  }

  /** On text the single pass already leaves clean, the intended sanitiser
      and the written one agree. */
  lemma SanitizeAgreesWhenOnePassSuffices(v: Value)
    requires v.Str? && v.s != ""
    requires !HasProtocol(Pass(Trim(v.s))) && !HasHandler(Pass(Trim(v.s)))
    ensures SanitizeText(v) == SanitizeTextAsWritten(v)
  {
    var s := Trim(v.s);
    var t := Pass(s);
    StripProtocolShrinks(t);
    assert RemoveAngles(t) == t && StripProtocol(t) == t && StripHandlers(t) == t;
    assert Pass(t) == t;
    if |t| < |s| {
      assert Clean(s) == Clean(t) == t;
    } else {
      assert t == s by {
        var a := RemoveAngles(s);
        var b := StripProtocol(a);
        StripProtocolShrinks(a);
        assert |a| == |s| && |b| == |a|;
      }
    }
  }

  // ---------------------------------------------------------------------
  // validateAssessmentData

  const InvalidFormat: string := "Invalid assessment data format"

  /** The TypeError `Object.keys(null)` throws. */
  const NullToObject: string := "Cannot convert undefined or null to object"

  const ArrayFields: seq<string> := ["fiveWhyProblems", "workTasks", "workRequirements"]
  const MaxItems: nat := 50
  const ItemBound: real := 10.0
  const WheelBound: real := 3.0

  /** `Math.max(-b, Math.min(b, x))` */
  function Clamp(x: real, b: real): (r: real)
    requires b >= 0.0
    ensures -b <= r <= b
    ensures -b <= x <= b ==> r == x
    ensures x > b ==> r == b
    ensures x < -b ==> r == -b
  {
    var m := if x < b then x else b;
    if m > -b then m else -b
  }

  /** Which `sanitizeText` a record is built with: the single pass the
      source runs, or the intended repeated pass. */
  datatype Sanitiser = AsWritten | Intended

  /** The text `z` makes of a value. */
  function Sanitise(z: Sanitiser, v: Value): (r: string)
    ensures |r| <= MaxTextLength && '<' !in r && '>' !in r
    ensures z == Intended ==> !HasProtocol(r) && !HasHandler(r)
    ensures !v.Str? || v.s == "" ==> r == ""
  {
    match z
    case AsWritten => SanitizeTextAsWritten(v)
    case Intended => SanitizeText(v)
  }

  /** What `z` promises of its text: short and without angle brackets, and
      for the intended sanitiser also no protocol or event-handler pattern. */
  predicate CleanText(z: Sanitiser, s: string)
  {
    |s| <= MaxTextLength && '<' !in s && '>' !in s
    && (z == Intended ==> !HasProtocol(s) && !HasHandler(s))
  }

  /** A property of a sanitised object item: a clean string or a clamped number. */
  predicate SafeProperty(z: Sanitiser, p: (string, Value))
  {
    (p.1.Str? && CleanText(z, p.1.s)) || (p.1.Num? && -ItemBound <= p.1.n <= ItemBound)
  }

  /** One property of an object item: strings are sanitised, numbers other
      than NaN clamped to [-10, 10], anything else dropped. */
  function SanitizeProperty(z: Sanitiser, p: (string, Value)): seq<(string, Value)>
  {
    match p.1
    case Str(_) => [(p.0, Str(Sanitise(z, p.1)))]
    case Num(n) => [(p.0, Num(Clamp(n, ItemBound)))]
    case _ => []
  }

  /** The properties of an object item, sanitised in `Object.keys` order. */
  function SanitizeFields(z: Sanitiser, fs: seq<(string, Value)>): (r: seq<(string, Value)>)
    ensures |r| <= |fs|
    ensures forall i :: 0 <= i < |r| ==> SafeProperty(z, r[i])
    ensures forall p :: p in r ==> exists j :: 0 <= j < |fs| && fs[j].0 == p.0
    decreases |fs|
  {
    if fs == [] then []
    else SanitizeFields(z, fs[..|fs| - 1]) + SanitizeProperty(z, fs[|fs| - 1])
  }

  /** A string or non-NaN number property survives, under its own key. */
  lemma {:induction false} SanitizeFieldsKeeps(z: Sanitiser, fs: seq<(string, Value)>, i: nat)
    requires i < |fs|
    ensures fs[i].1.Str? ==> (fs[i].0, Str(Sanitise(z, fs[i].1))) in SanitizeFields(z, fs)
    ensures fs[i].1.Num? ==> (fs[i].0, Num(Clamp(fs[i].1.n, ItemBound))) in SanitizeFields(z, fs)
    decreases |fs|
  {
    var init := fs[..|fs| - 1];
    assert SanitizeFields(z, fs) == SanitizeFields(z, init) + SanitizeProperty(z, fs[|fs| - 1]);
    if i < |fs| - 1 {
      SanitizeFieldsKeeps(z, init, i);
      assert init[i] == fs[i];
    } else {
      SanitizePropertyCases(z, fs[i].0, fs[i].1);
    }
  }

  /** An item of a sanitised array. */
  predicate SafeItem(z: Sanitiser, v: Value)
  {
    match v
    case Obj(fs) => forall i :: 0 <= i < |fs| ==> SafeProperty(z, fs[i])
    case Str(s) => CleanText(z, s)
    case Arr(_) => false
    case Null => false
    case _ => true
  }

  /** One array item: objects and arrays become objects of sanitised
      properties, `null` throws, strings are sanitised, the rest is kept. */
  function SanitizeItem(z: Sanitiser, item: Value): (r: Result<Value, string>)
    ensures r.Ok? ==> SafeItem(z, r.value)
    ensures r.Err? <==> item.Null?
  {
    match item
    case Null => Err(NullToObject)
    case Obj(_) => Ok(Obj(SanitizeFields(z, Entries(item))))
    case Arr(_) => Ok(Obj(SanitizeFields(z, Entries(item))))
    case Str(_) => Ok(Str(Sanitise(z, item)))
    case _ => Ok(item)
  }

  /** The items mapped in order; the first `null` aborts. */
  function SanitizeItems(z: Sanitiser, items: seq<Value>): (r: Result<seq<Value>, string>)
    ensures r.Ok? ==> |r.value| == |items| && forall i :: 0 <= i < |r.value| ==> SafeItem(z, r.value[i])
    ensures r.Err? ==> r.error == NullToObject
    decreases |items|
  {
    if items == [] then Ok([])
    else
      var prev := SanitizeItems(z, items[..|items| - 1]);
      var last := SanitizeItem(z, items[|items| - 1]);
      if prev.Err? then prev
      else if last.Err? then Err(last.error)
      else Ok(prev.value + [last.value])
  }

  lemma {:induction false} SanitizeItemsFails(z: Sanitiser, items: seq<Value>)
    ensures SanitizeItems(z, items).Err? <==> Null in items
    decreases |items|
  {
    if items != [] {
      var init := items[..|items| - 1];
      SanitizeItemsFails(z, init);
      assert items == init + [items[|items| - 1]];
    }
  }

  /** Once an item has failed, later items change nothing. */
  lemma {:induction false} SanitizeItemsFailureSticks(z: Sanitiser, items: seq<Value>, k: nat)
    requires k <= |items| && SanitizeItems(z, items[..k]).Err?
    ensures SanitizeItems(z, items) == SanitizeItems(z, items[..k])
    decreases |items| - k
  {
    if k < |items| {
      assert items[..k + 1][..k] == items[..k];
      SanitizeItemsFailureSticks(z, items, k + 1);
    } else {
      assert items[..k] == items;
    }
  }

  /** A sanitised array field: at most 50 safe items. */
  predicate SafeList(z: Sanitiser, v: Value)
  {
    v.Arr? && |v.items| <= MaxItems && forall i :: 0 <= i < |v.items| ==> SafeItem(z, v.items[i])
  }

  /** The array fields among `names`, in order, each sliced to 50 items and
      sanitised; the first `null` item aborts. */
  function ArrayPart(z: Sanitiser, data: Value, names: seq<string>): (r: Result<seq<(string, Value)>, string>)
    ensures r.Ok? ==> forall i :: 0 <= i < |r.value| ==> r.value[i].0 in names && SafeList(z, r.value[i].1)
    ensures r.Err? ==> r.error == NullToObject
    decreases |names|
  {
    if names == [] then Ok([])
    else
      var prev := ArrayPart(z, data, names[..|names| - 1]);
      var name := names[|names| - 1];
      if prev.Err? then prev
      else match Get(data, name)
        case Some(Arr(items)) =>
          (match SanitizeItems(z, Lists.Take(items, MaxItems))
           case Err(e) => Err(e)
           case Ok(xs) => Ok(prev.value + [(name, Arr(xs))]))
        case _ => prev
  }

  /** Some array field among `names` holds `null` among its first 50 items. */
  predicate HasNullItem(data: Value, names: seq<string>)
  {
    exists k :: 0 <= k < |names| && NullItemIn(data, names[k])
  }

  predicate NullItemIn(data: Value, name: string)
  {
    match Get(data, name)
    case Some(Arr(items)) => Null in Lists.Take(items, MaxItems)
    case _ => false
  }

  lemma {:induction false} ArrayPartFails(z: Sanitiser, data: Value, names: seq<string>)
    ensures ArrayPart(z, data, names).Err? <==> HasNullItem(data, names)
    decreases |names|
  {
    if names != [] {
      ArrayPartFails(z, data, names[..|names| - 1]);
      HasNullItemSnoc(data, names);
      if ArrayPart(z, data, names[..|names| - 1]).Ok? {
        ArrayPartLast(z, data, names);
      }
    }
  }

  /** A null item in some field is one in an earlier field or in the last. */
  lemma HasNullItemSnoc(data: Value, names: seq<string>)
    requires names != []
    ensures HasNullItem(data, names)
        <==> HasNullItem(data, names[..|names| - 1]) || NullItemIn(data, names[|names| - 1])
  {
    var init := names[..|names| - 1];
    if HasNullItem(data, init) {
      var k :| 0 <= k < |init| && NullItemIn(data, init[k]);
      assert names[k] == init[k];
    }
    if HasNullItem(data, names) {
      var k :| 0 <= k < |names| && NullItemIn(data, names[k]);
      if k < |init| {
        assert init[k] == names[k];
      }
    }
  }

  /** When the earlier fields succeed, the last field decides. */
  lemma ArrayPartLast(z: Sanitiser, data: Value, names: seq<string>)
    requires names != [] && ArrayPart(z, data, names[..|names| - 1]).Ok?
    ensures ArrayPart(z, data, names).Err? <==> NullItemIn(data, names[|names| - 1])
  {
    match Get(data, names[|names| - 1])
    case Some(Arr(items)) =>
      SanitizeItemsFails(z, Lists.Take(items, MaxItems));
    case _ =>
  }

  /** Once a field has failed, later fields change nothing. */
  lemma {:induction false} ArrayPartFailureSticks(z: Sanitiser, data: Value, names: seq<string>, k: nat)
    requires k <= |names| && ArrayPart(z, data, names[..k]).Err?
    ensures ArrayPart(z, data, names) == ArrayPart(z, data, names[..k])
    decreases |names| - k
  {
    if k < |names| {
      assert names[..k + 1][..k] == names[..k];
      ArrayPartFailureSticks(z, data, names, k + 1);
    } else {
      assert names[..k] == names;
    }
  }

  const ValueLists: seq<string> := ["all", "top10", "top5"]

  function ValueLimit(name: string): nat
  {
    if name == "all" then 100 else if name == "top10" then 10 else 5
  }

  /** `value && value.length > 0` */
  predicate KeepValue(v: Value)
  {
    match v
    case Str(s) => s != ""
    case Arr(items) => |items| > 0
    case Obj(fs) =>
      (match Lookup(fs, "length")
       case Some(Num(n)) => n > 0.0
       case Some(Bool(b)) => b
       case _ => false)
    case _ => false
  }

  /** An entry of a sanitised value list. */
  predicate SafeValue(z: Sanitiser, v: Value)
  {
    KeepValue(v) && (v.Str? ==> CleanText(z, v.s))
  }

  function CleanValue(z: Sanitiser, v: Value): Value
  {
    if v.Str? then Str(Sanitise(z, v)) else v
  }

  /** `.map(sanitise strings).filter(value && value.length > 0)` */
  function CleanValues(z: Sanitiser, vs: seq<Value>): (r: seq<Value>)
    ensures |r| <= |vs|
    ensures forall i :: 0 <= i < |r| ==> SafeValue(z, r[i])
    decreases |vs|
  {
    if vs == [] then []
    else
      var c := CleanValue(z, vs[|vs| - 1]);
      CleanValues(z, vs[..|vs| - 1]) + (if KeepValue(c) then [c] else [])
  }

  /** A non-empty string entry is kept exactly when sanitising leaves something. */
  lemma {:induction false} CleanValuesKeeps(z: Sanitiser, vs: seq<Value>, i: nat)
    requires i < |vs| && vs[i].Str?
    ensures Sanitise(z, vs[i]) != "" ==> Str(Sanitise(z, vs[i])) in CleanValues(z, vs)
    decreases |vs|
  {
    var init := vs[..|vs| - 1];
    if i < |vs| - 1 {
      CleanValuesKeeps(z, init, i);
      assert init[i] == vs[i];
    }
  }

  predicate SafeValueList(z: Sanitiser, p: (string, Value))
  {
    p.0 in ValueLists && p.1.Arr? && |p.1.items| <= ValueLimit(p.0)
    && forall i :: 0 <= i < |p.1.items| ==> SafeValue(z, p.1.items[i])
  }

  /** The lists among `names` that `v` holds as arrays, each sliced to its limit
      and cleaned. */
  function ValueListsOf(z: Sanitiser, v: Value, names: seq<string>): (r: seq<(string, Value)>)
    requires forall k :: 0 <= k < |names| ==> names[k] in ValueLists
    ensures forall i :: 0 <= i < |r| ==> SafeValueList(z, r[i])
    decreases |names|
  {
    if names == [] then []
    else
      var name := names[|names| - 1];
      ValueListsOf(z, v, names[..|names| - 1]) + ValueList(z, v, name)
  }

  /** The list `name` of `v`, sliced to its limit and cleaned, when `v` holds it as an array. */
  function ValueList(z: Sanitiser, v: Value, name: string): seq<(string, Value)>
  {
    match Get(v, name)
    case Some(Arr(items)) => [(name, Arr(CleanValues(z, Lists.Take(items, ValueLimit(name)))))]
    case _ => []
  }

  /** The `values` section, present when `data.values` is an object or array. */
  function ValuesPart(z: Sanitiser, data: Value): seq<(string, Value)>
  {
    match Get(data, "values")
    case Some(v) => if v.Obj? || v.Arr? then [("values", Obj(ValueListsOf(z, v, ValueLists)))] else []
    case None => []
  }

  predicate SafeWheelEntry(v: Value)
  {
    (v.Num? && -WheelBound <= v.n <= WheelBound) || v.NaN? || v.Obj? || v.Arr? || v.Null?
  }

  /** One wheel property: numbers clamped to [-3, 3] (NaN stays NaN), objects,
      arrays and `null` kept, anything else dropped. */
  function WheelProperty(p: (string, Value)): seq<(string, Value)>
  {
    match p.1
    case Num(n) => [(p.0, Num(Clamp(n, WheelBound)))]
    case Str(_) => []
    case Bool(_) => []
    case _ => [p]
  }

  function WheelFields(fs: seq<(string, Value)>): (r: seq<(string, Value)>)
    ensures |r| <= |fs|
    ensures forall i :: 0 <= i < |r| ==> SafeWheelEntry(r[i].1)
    decreases |fs|
  {
    if fs == [] then []
    else WheelFields(fs[..|fs| - 1]) + WheelProperty(fs[|fs| - 1])
  }

  /** The `wheelOfLife` section, present when `data.wheelOfLife` is an object or array. */
  function WheelPart(data: Value): seq<(string, Value)>
  {
    match Get(data, "wheelOfLife")
    case Some(w) => if w.Obj? || w.Arr? then [("wheelOfLife", Obj(WheelFields(Entries(w))))] else []
    case None => []
  }

  /** `validateAssessmentData`: the sanitised record, or the message of what it throws. */
  function AssessmentOf(z: Sanitiser, data: Value): Result<Value, string>
  {
    if !(data.Obj? || data.Arr?) then Err(InvalidFormat)
    else match ArrayPart(z, data, ArrayFields)
      case Err(e) => Err(e)
      case Ok(fs) => Ok(Obj(fs + ValuesPart(z, data) + WheelPart(data)))
  }

  /** A section of a sanitised record. */
  predicate SafeSection(z: Sanitiser, p: (string, Value))
  {
    (p.0 in ArrayFields && SafeList(z, p.1))
    || (p.0 == "values" && p.1.Obj? && forall i :: 0 <= i < |p.1.fields| ==> SafeValueList(z, p.1.fields[i]))
    || (p.0 == "wheelOfLife" && p.1.Obj? && forall i :: 0 <= i < |p.1.fields| ==> SafeWheelEntry(p.1.fields[i].1))
  }

  /** The record is rejected as malformed exactly when it is neither an object
      nor an array, and fails otherwise exactly when an array field holds
      `null` among its first 50 items. */
  lemma AssessmentFails(z: Sanitiser, data: Value)
    ensures AssessmentOf(z, data) == Err(InvalidFormat) <==> !(data.Obj? || data.Arr?)
    ensures (data.Obj? || data.Arr?) ==> (AssessmentOf(z, data).Err? <==> HasNullItem(data, ArrayFields))
    ensures AssessmentOf(z, data).Err? ==> AssessmentOf(z, data).error in {InvalidFormat, NullToObject}
  {
    ArrayPartFails(z, data, ArrayFields);
  }

  /** Every section of an accepted record is one of the five known keys, and
      each holds only sanitised, bounded content. */
  lemma AssessmentSafe(z: Sanitiser, data: Value)
    requires AssessmentOf(z, data).Ok?
    ensures AssessmentOf(z, data).value.Obj?
    ensures forall i :: 0 <= i < |AssessmentOf(z, data).value.fields| ==> SafeSection(z, AssessmentOf(z, data).value.fields[i])
  {
    var fs := ArrayPart(z, data, ArrayFields).value;
    var all := fs + ValuesPart(z, data) + WheelPart(data);
    forall i | 0 <= i < |all| ensures SafeSection(z, all[i]) {
      if i < |fs| {
        assert all[i] == fs[i];
      } else if i < |fs| + |ValuesPart(z, data)| {
        assert all[i] == ValuesPart(z, data)[i - |fs|];
      } else {
        assert all[i] == WheelPart(data)[i - |fs| - |ValuesPart(z, data)|];
      }
    }
  }

  /** Every array field present in the input comes out with exactly
      `min(length, 50)` items. */
  lemma {:induction false} ArrayPartLengths(z: Sanitiser, data: Value, names: seq<string>, k: nat)
    requires ArrayPart(z, data, names).Ok? && k < |names|
    requires Get(data, names[k]).Some? && Get(data, names[k]).value.Arr?
    ensures (exists j :: 0 <= j < |ArrayPart(z, data, names).value| && ArrayPart(z, data, names).value[j].0 == names[k] && |ArrayPart(z, data, names).value[j].1.items| == |Lists.Take(Get(data, names[k]).value.items, MaxItems)|)
    decreases |names|
  {
    var init := names[..|names| - 1];
    var prev := ArrayPart(z, data, init);
    if k < |names| - 1 {
      assert init[k] == names[k];
      ArrayPartLengths(z, data, init, k);
      var j :| 0 <= j < |prev.value| && prev.value[j].0 == names[k]
        && |prev.value[j].1.items| == |Lists.Take(Get(data, names[k]).value.items, MaxItems)|;
      assert ArrayPart(z, data, names).value[j] == prev.value[j];
    } else {
      var r := ArrayPart(z, data, names).value;
      assert r[|r| - 1].0 == names[k];
    }
  }

  /** The three branches of one property, by its type. */
  lemma SanitizePropertyCases(z: Sanitiser, key: string, v: Value)
    ensures v.Str? ==> SanitizeProperty(z, (key, v)) == [(key, Str(Sanitise(z, v)))]
    ensures v.Num? ==> SanitizeProperty(z, (key, v)) == [(key, Num(Clamp(v.n, ItemBound)))]
    ensures !v.Str? && !v.Num? ==> SanitizeProperty(z, (key, v)) == []
  {
  }

  /** One more property appends its sanitised form, if any. */
  lemma SanitizeFieldsSnoc(z: Sanitiser, entries: seq<(string, Value)>, i: nat)
    requires i < |entries|
    ensures SanitizeFields(z, entries[..i + 1]) == SanitizeFields(z, entries[..i]) + SanitizeProperty(z, entries[i])
  {
    assert entries[..i + 1][..i] == entries[..i];
  }

  method SanitizeObjectItem(entries: seq<(string, Value)>) returns (fs: seq<(string, Value)>)
    ensures fs == SanitizeFields(AsWritten, entries)
  {
    fs := [];
    var i := 0;
    while i < |entries|
      invariant 0 <= i <= |entries|
      invariant fs == SanitizeFields(AsWritten, entries[..i])
    {
      ghost var before := fs;
      var key, v := entries[i].0, entries[i].1;
      if v.Str? {
        fs := fs + [(key, Str(SanitizeTextAsWritten(v)))];
      } else if v.Num? {
        fs := fs + [(key, Num(Clamp(v.n, ItemBound)))];
      }
      assert fs == before + SanitizeProperty(AsWritten, entries[i]) by {
        SanitizePropertyCases(AsWritten, key, v);
      }
      SanitizeFieldsSnoc(AsWritten, entries, i);
      i := i + 1;
    }
    assert entries[..i] == entries;
  }

  /** One more item either throws or appends its sanitised form. */
  lemma SanitizeItemsSnoc(z: Sanitiser, xs: seq<Value>, i: nat)
    requires i < |xs| && SanitizeItems(z, xs[..i]).Ok?
    ensures xs[i].Null? ==> SanitizeItems(z, xs[..i + 1]) == Err(NullToObject)
    ensures !xs[i].Null? ==>
      SanitizeItems(z, xs[..i + 1]) == Ok(SanitizeItems(z, xs[..i]).value + [SanitizeItem(z, xs[i]).value])
  {
    assert xs[..i + 1][..i] == xs[..i];
  }

  /** `.slice(0, 50).map(...)` over one array field. */
  method SanitizeArray(items: seq<Value>) returns (r: Result<seq<Value>, string>)
    ensures r == SanitizeItems(AsWritten, Lists.Take(items, MaxItems))
  {
    var xs := Lists.Take(items, MaxItems);
    var out: seq<Value> := [];
    var i := 0;
    while i < |xs|
      invariant 0 <= i <= |xs|
      invariant SanitizeItems(AsWritten, xs[..i]) == Ok(out)
    {
      var item := xs[i];
      SanitizeItemsSnoc(AsWritten, xs, i);
      if item.Null? {
        SanitizeItemsFailureSticks(AsWritten, xs, i + 1);
        return Err(NullToObject);
      }
      var v: Value;
      if item.Obj? || item.Arr? {
        var fs := SanitizeObjectItem(Entries(item));
        v := Obj(fs);
      } else if item.Str? {
        v := Str(SanitizeTextAsWritten(item));
      } else {
        v := item;
      }
      assert v == SanitizeItem(AsWritten, item).value;
      out := out + [v];
      i := i + 1;
    }
    assert xs[..i] == xs;
    r := Ok(out);
  }

  method SanitizeWheel(entries: seq<(string, Value)>) returns (fs: seq<(string, Value)>)
    ensures fs == WheelFields(entries)
  {
    fs := [];
    var i := 0;
    while i < |entries|
      invariant 0 <= i <= |entries|
      invariant fs == WheelFields(entries[..i])
    {
      assert entries[..i + 1][..i] == entries[..i];
      var (key, v) := entries[i];
      if v.Num? {
        fs := fs + [(key, Num(Clamp(v.n, WheelBound)))];
      } else if v.NaN? || v.Obj? || v.Arr? || v.Null? {
        fs := fs + [(key, v)];
      }
      i := i + 1;
    }
    assert entries[..i] == entries;
  }

  /** One more list name appends that list, cleaned, when `v` holds it as an array. */
  lemma ValueListsOfSnoc(z: Sanitiser, v: Value, k: nat)
    requires k < |ValueLists|
    ensures ValueListsOf(z, v, ValueLists[..k + 1]) == ValueListsOf(z, v, ValueLists[..k]) + ValueList(z, v, ValueLists[k])
  {
    assert ValueLists[..k + 1][..k] == ValueLists[..k];
  }

  method SanitizeValues(v: Value) returns (fs: seq<(string, Value)>)
    ensures fs == ValueListsOf(AsWritten, v, ValueLists)
  {
    fs := [];
    var k := 0;
    while k < |ValueLists|
      invariant 0 <= k <= |ValueLists|
      invariant fs == ValueListsOf(AsWritten, v, ValueLists[..k])
    {
      ValueListsOfSnoc(AsWritten, v, k);
      var name := ValueLists[k];
      var list := Get(v, name);
      if list.Some? && list.value.Arr? {
        fs := fs + [(name, Arr(CleanValues(AsWritten, Lists.Take(list.value.items, ValueLimit(name)))))];
      }
      k := k + 1;
    }
    assert ValueLists[..k] == ValueLists;
  }

  /** The record `{workTasks: [{name: text}]}`. */
  function OneTaskRecord(text: string): Value
  {
    Obj([("workTasks", Arr([Obj([("name", Str(text))])]))])
  }

  /** One more field name: an array field appends its sanitised items, any
      other leaves the result as it was. */
  lemma ArrayPartStep(z: Sanitiser, data: Value, names: seq<string>)
    requires names != [] && ArrayPart(z, data, names[..|names| - 1]).Ok?
    ensures var name := names[|names| - 1];
      !(Get(data, name).Some? && Get(data, name).value.Arr?) ==>
        ArrayPart(z, data, names) == ArrayPart(z, data, names[..|names| - 1])
    ensures var name := names[|names| - 1];
      Get(data, name).Some? && Get(data, name).value.Arr?
      && SanitizeItems(z, Lists.Take(Get(data, name).value.items, MaxItems)).Ok? ==>
        ArrayPart(z, data, names) == Ok(ArrayPart(z, data, names[..|names| - 1]).value
          + [(name, Arr(SanitizeItems(z, Lists.Take(Get(data, name).value.items, MaxItems)).value))])
  {
  }

  /** A single item that is not `null` maps to its sanitised form. */
  lemma SanitizeItemsSingle(z: Sanitiser, item: Value)
    requires !item.Null?
    ensures SanitizeItems(z, [item]) == Ok([SanitizeItem(z, item).value])
  {
    var v := SanitizeItem(z, item).value;
    assert [item][..0] == [] && [item][0] == item;
    assert SanitizeItems(z, []) == Ok([]);
    assert [] + [v] == [v];
  }

  /** The record holding one array field, `workTasks`, with one item. */
  function OneItemData(item: Value): Value
  {
    Obj([("workTasks", Arr([item]))])
  }

  /** Of the first two array fields, the one-item record has only `workTasks`. */
  lemma OneItemFirstArrays(z: Sanitiser, item: Value)
    requires !item.Null?
    ensures ArrayPart(z, OneItemData(item), ArrayFields[..2])
      == Ok([("workTasks", Arr([SanitizeItem(z, item).value]))])
  {
    var data := OneItemData(item);
    var section := ("workTasks", Arr([SanitizeItem(z, item).value]));
    var one, two := ArrayFields[..1], ArrayFields[..2];
    assert ArrayPart(z, data, one) == Ok([]) by {
      assert one[..0] == [] && Get(data, "fiveWhyProblems") == None;
      ArrayPartStep(z, data, one);
    }
    assert two[..|two| - 1] == one && two[|two| - 1] == "workTasks";
    assert Get(data, "workTasks") == Some(Arr([item]));
    assert Lists.Take([item], MaxItems) == [item];
    SanitizeItemsSingle(z, item);
    ArrayPartStep(z, data, two);
    assert [] + [section] == [section];
  }

  /** Of all the array fields, the one-item record has only `workTasks`. */
  lemma OneItemArrays(z: Sanitiser, item: Value)
    requires !item.Null?
    ensures ArrayPart(z, OneItemData(item), ArrayFields)
      == Ok([("workTasks", Arr([SanitizeItem(z, item).value]))])
  {
    OneItemFirstArrays(z, item);
    assert ArrayFields[..2] == ArrayFields[..|ArrayFields| - 1];
    assert Get(OneItemData(item), "workRequirements") == None;
    ArrayPartStep(z, OneItemData(item), ArrayFields);
  }

  /** A record holding one array field, `workTasks`, with one item that is
      not `null` comes back with that item sanitised. */
  lemma {:induction false} OneItemRecord(z: Sanitiser, item: Value)
    requires !item.Null?
    ensures AssessmentOf(z, OneItemData(item))
      == Ok(Obj([("workTasks", Arr([SanitizeItem(z, item).value]))]))
  {
    var data := OneItemData(item);
    var section := ("workTasks", Arr([SanitizeItem(z, item).value]));
    OneItemArrays(z, item);
    assert ValuesPart(z, data) == [] && WheelPart(data) == [] by {
      assert Get(data, "values") == None && Get(data, "wheelOfLife") == None;
    }
    assert [section] + [] + [] == [section];
  }

  /** A one-task record comes back as the same record with the name sanitised. */
  lemma {:induction false} OneTaskRecordOf(z: Sanitiser, text: string)
    ensures AssessmentOf(z, OneTaskRecord(text)) == Ok(OneTaskRecord(Sanitise(z, Str(text))))
  {
    var field := ("name", Str(text));
    var item := Obj([field]);
    var clean := Str(Sanitise(z, Str(text)));
    assert SanitizeItem(z, item) == Ok(Obj([("name", clean)])) by {
      SanitizeOneField(z, field);
      SanitizePropertyCases(z, "name", Str(text));
    }
    var record := OneItemData(item);
    var cleaned := Obj([("workTasks", Arr([Obj([("name", clean)])]))]);
    assert AssessmentOf(z, record) == Ok(cleaned) by { OneItemRecord(z, item); }
    assert OneTaskRecord(text) == record && OneTaskRecord(Sanitise(z, Str(text))) == cleaned;
  }

  /** An object item of one property sanitises to that property's
      sanitised form. */
  lemma SanitizeOneField(z: Sanitiser, field: (string, Value))
    ensures SanitizeItem(z, Obj([field])) == Ok(Obj(SanitizeProperty(z, field)))
  {
    assert SanitizeFields(z, [field]) == SanitizeProperty(z, field) by {
      assert [field][..0] == [];
      assert [] + SanitizeProperty(z, field) == SanitizeProperty(z, field);
    }
  }

  /** As written, `{workTasks: [{name: "jajavascript:vascript:"}]}` is
      accepted with the name `javascript:`; the intended sanitiser leaves no
      protocol in the name. */
  lemma {:induction false} AssessmentKeepsProtocol(s: string)
    requires s == "jajavascript:vascript:"
    ensures AssessmentOf(AsWritten, OneTaskRecord(s)) == Ok(OneTaskRecord(Protocol))
    ensures AssessmentOf(Intended, OneTaskRecord(s)) == Ok(OneTaskRecord(SanitizeText(Str(s))))
    ensures HasProtocol(Protocol) && !HasProtocol(SanitizeText(Str(s)))
  {
    OneTaskRecordOf(AsWritten, s);
    OneTaskRecordOf(Intended, s);
    SanitizeLeavesProtocol(s);
  }

  /** `validateAssessmentData`, section by section. */
  method ValidateAssessmentData(data: Value) returns (r: Result<Value, string>)
    ensures r == AssessmentOf(AsWritten, data)
  {
    if !(data.Obj? || data.Arr?) {
      return Err(InvalidFormat);
    }
    var sections: seq<(string, Value)> := [];
    var k := 0;
    while k < |ArrayFields|
      invariant 0 <= k <= |ArrayFields|
      invariant ArrayPart(AsWritten, data, ArrayFields[..k]) == Ok(sections)
    {
      assert ArrayFields[..k + 1][..k] == ArrayFields[..k];
      var name := ArrayFields[k];
      var field := Get(data, name);
      if field.Some? && field.value.Arr? {
        var items := SanitizeArray(field.value.items);
        if items.Err? {
          ArrayPartFailureSticks(AsWritten, data, ArrayFields, k + 1);
          return Err(items.error);
        }
        sections := sections + [(name, Arr(items.value))];
      }
      k := k + 1;
    }
    assert ArrayFields[..k] == ArrayFields;
    ghost var arrays := sections;
    var values := Get(data, "values");
    if values.Some? && (values.value.Obj? || values.value.Arr?) {
      var lists := SanitizeValues(values.value);
      sections := sections + [("values", Obj(lists))];
    }
    assert sections == arrays + ValuesPart(AsWritten, data);
    ghost var withValues := sections;
    var wheel := Get(data, "wheelOfLife");
    if wheel.Some? && (wheel.value.Obj? || wheel.value.Arr?) {
      var entries := SanitizeWheel(Entries(wheel.value));
      sections := sections + [("wheelOfLife", Obj(entries))];
    }
    assert sections == withValues + WheelPart(data);
    r := Ok(Obj(sections));
  }

  // ---------------------------------------------------------------------
  // createRateLimiter

  /** The defaults `createRateLimiter` falls back to when called without
      arguments: five attempts per window of fifteen minutes, in
      milliseconds. */
  const DefaultMaxAttempts: int := 5
  const DefaultWindowMs: int := 15 * 60 * 1000

  /** `createRateLimiter()` with both arguments left out. */
  method CreateDefaultRateLimiter() returns (r: RateLimiter)
    ensures fresh(r) && r.Valid()
    ensures r.maxAttempts == 5 && r.windowMs == 900000
    ensures r.attempts == map[]
  {
    r := new RateLimiter(DefaultMaxAttempts, DefaultWindowMs);
  }

  /** The limiter's answer; `resetTime` is `None` where JavaScript would
      compute `undefined + windowMs`, i.e. NaN. */
  datatype Decision = Allowed(remaining: int) | Denied(resetTime: Option<int>)

  /** `time => now - time < windowMs` */
  function InWindow(now: int, windowMs: int): int -> bool
  {
    t => now - t < windowMs
  }

  /** The stored attempts still inside the window, in stored order. */
  function Recent(stored: seq<int>, now: int, windowMs: int): (r: seq<int>)
    ensures Lists.IsSubseq(r, stored)
    ensures forall t :: t in r <==> t in stored && now - t < windowMs
  {
    Lists.FilterIsSubseq(stored, InWindow(now, windowMs));
    Lists.Filter(stored, InWindow(now, windowMs))
  }

  /** The answer to one call, given the attempts stored for its identifier. */
  function Decide(stored: seq<int>, now: int, maxAttempts: int, windowMs: int): Decision
  {
    var recent := Recent(stored, now, windowMs);
    if |recent| >= maxAttempts then Denied(if recent == [] then None else Some(recent[0] + windowMs))
    else Allowed(maxAttempts - (|recent| + 1))
  }

  /** A call is allowed exactly when fewer than `maxAttempts` stored attempts
      fall inside the window; a denial names a reset time after `now`. */
  lemma DecideIff(stored: seq<int>, now: int, maxAttempts: int, windowMs: int)
    ensures Decide(stored, now, maxAttempts, windowMs).Allowed?
      <==> Lists.Count(stored, InWindow(now, windowMs)) < maxAttempts
    ensures Decide(stored, now, maxAttempts, windowMs).Allowed? ==>
      Decide(stored, now, maxAttempts, windowMs).remaining == maxAttempts - Lists.Count(stored, InWindow(now, windowMs)) - 1
    ensures Decide(stored, now, maxAttempts, windowMs) == Denied(None) ==> maxAttempts <= 0
    ensures Decide(stored, now, maxAttempts, windowMs).Denied? && Decide(stored, now, maxAttempts, windowMs).resetTime.Some? ==>
      Decide(stored, now, maxAttempts, windowMs).resetTime.value > now
  {
    var recent := Recent(stored, now, windowMs);
    if recent != [] {
      assert recent[0] in recent;
    }
  }

  /** The closure `createRateLimiter` returns, with the `Map` it closes over. */
  class RateLimiter {
    const maxAttempts: int
    const windowMs: int
    var attempts: map<string, seq<int>>

    /** No identifier ever has more than `maxAttempts` stored attempts. */
    predicate Valid()
      reads this
    {
      forall id :: id in attempts ==> |attempts[id]| <= maxAttempts
    }

    /** `attempts.get(identifier) || []` */
    function Stored(id: string): seq<int>
      reads this
    {
      if id in attempts then attempts[id] else []
    }

    constructor(maxAttempts: int, windowMs: int)
      ensures this.maxAttempts == maxAttempts && this.windowMs == windowMs
      ensures attempts == map[]
      ensures Valid()
    {
      this.maxAttempts := maxAttempts;
      this.windowMs := windowMs;
      attempts := map[];
    }

    /** One call of the limiter for `id` at time `now`. A denied call leaves
        every stored list alone; an allowed call replaces only `id`'s list,
        by its recent attempts followed by `now`. */
    method Check(id: string, now: int) returns (d: Decision)
      requires Valid()
      modifies this
      ensures Valid()
      ensures d == Decide(old(Stored(id)), now, maxAttempts, windowMs)
      ensures d.Denied? ==> attempts == old(attempts)
      ensures d.Allowed? ==> attempts == old(attempts)[id := Recent(old(Stored(id)), now, windowMs) + [now]]
      ensures forall other :: other != id ==> Stored(other) == old(Stored(other))
    {
      var userAttempts := if id in attempts then attempts[id] else [];
      var recent := Recent(userAttempts, now, windowMs);
      if |recent| >= maxAttempts {
        return Denied(if recent == [] then None else Some(recent[0] + windowMs));
      }
      recent := recent + [now];
      attempts := attempts[id := recent];
      d := Allowed(maxAttempts - |recent|);
    }
  }
}
