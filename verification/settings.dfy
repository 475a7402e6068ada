/** The string checks `main.py` performs on its configuration before the bot
    starts: the offline token-format test of `validate_token`, the bot id shown
    at start-up, and the parsing of the comma-separated `ADMIN_IDS` entry. */
module Settings {
  import opened Text

  // ---------------------------------------------------------------------------
  // Bot tokens: "<digits>:<secret>"
  // ---------------------------------------------------------------------------

  /** Why a token's format was refused, or the bot id it carries. */
  datatype FormatVerdict = NoSeparator | BadBotId | WellFormed(botId: string)

  /** The part of `validate_token` that runs before any API call: a token
      without ':' (the empty one included) is refused, then the text before the
      FIRST ':' (`token.split(':', 1)[0]`) must be a non-empty run of digits. */
  function CheckTokenFormat(token: string): (v: FormatVerdict)
    ensures v == NoSeparator <==> ':' !in token
    ensures v.WellFormed? ==>
      && IsDigits(v.botId)
      && |v.botId| < |token|
      && token[..|v.botId|] == v.botId
      && token[|v.botId|] == ':'
    ensures v.BadBotId? ==> ':' in token && !IsDigits(token[..IndexOf(token, ':')])
  {
    if token == [] || ':' !in token then NoSeparator
    else
      var idPart := Partition(token, ':').0;
      if IsDigits(idPart) then WellFormed(idPart) else BadBotId
  }

  /** The outcome of `validate_token`: a verdict, with whether the Telegram API
      was reached, or the `TokenValidationError` that aiogram's `Bot(token=...)`
      raises at main.py:31, outside the `try` of lines 32-46. Nothing in
      main.py catches it before `asyncio.run`, so it ends the program. */
  datatype TokenCheck = Verdict(valid: bool, apiCalled: bool) | ConstructorRaised

  /** The token check aiogram's `Bot` constructor performs: no whitespace
      character anywhere, and `token.partition(':')` yields a separator, a
      digit-only left part and a non-empty right part. */
  predicate BotAcceptsToken(token: string) {
    && (forall i :: 0 <= i < |token| ==> !IsSpace(token[i]))
    && ':' in token
    && IsDigits(Partition(token, ':').0)
    && Partition(token, ':').1 != []
  }

  /** `validate_token`, with the answer of `get_me` (main.py:31-46) passed in as
      `apiAccepts`: every API error, "already in use" included, yields False. */
  function ValidateToken(token: string, apiAccepts: bool): (r: TokenCheck)
    ensures r.ConstructorRaised? <==> CheckTokenFormat(token).WellFormed? && !BotAcceptsToken(token)
    ensures r.Verdict? ==> (r.apiCalled <==> CheckTokenFormat(token).WellFormed?)
    ensures r.Verdict? ==> (r.valid <==> r.apiCalled && apiAccepts)
    ensures (token == [] || ':' !in token) ==> r == Verdict(false, false)
  {
    match CheckTokenFormat(token)
    case WellFormed(_) =>
      if BotAcceptsToken(token) then Verdict(apiAccepts, true) else ConstructorRaised
    case _ => Verdict(false, false)
  }

  /** A digit bot id, ':' and a non-empty secret free of whitespace reach the
      API, whose answer is the verdict. */
  lemma TokenReachesApi(botId: string, secret: string, apiAccepts: bool)
    requires IsDigits(botId)
    requires secret != []
    requires forall i :: 0 <= i < |secret| ==> !IsSpace(secret[i])
    ensures ValidateToken(botId + [':'] + secret, apiAccepts) == Verdict(apiAccepts, true)
  {
    var token := botId + [':'] + secret;
    DigitsHaveNoColon(botId);
    SecretIsIrrelevant(botId, secret);
    assert Partition(token, ':') == (botId, secret) by {
      assert token[..|botId|] == botId && token[|botId| + 1..] == secret;
    }
    forall i | 0 <= i < |token| ensures !IsSpace(token[i]) {
      if i < |botId| {
        assert token[i] == botId[i];
      } else if i > |botId| {
        assert token[i] == secret[i - |botId| - 1];
      }
    }
  }

  /** A token that ends right after its digit bot id's ':' passes the offline
      format check but makes the `Bot` constructor raise. */
  lemma EmptySecretRaises(botId: string, apiAccepts: bool)
    requires IsDigits(botId)
    ensures CheckTokenFormat(botId + [':']).WellFormed?
    ensures ValidateToken(botId + [':'], apiAccepts) == ConstructorRaised
  {
    var token := botId + [':'];
    DigitsHaveNoColon(botId);
    SecretIsIrrelevant(botId, []);
    assert token == botId + [':'] + [];
    assert Partition(token, ':').1 == [];
  }

  /** So does a whitespace character anywhere after the ':'. */
  lemma SpaceInSecretRaises(botId: string, before: string, c: char, after: string, apiAccepts: bool)
    requires IsDigits(botId)
    requires IsSpace(c)
    ensures CheckTokenFormat(botId + [':'] + (before + [c] + after)).WellFormed?
    ensures ValidateToken(botId + [':'] + (before + [c] + after), apiAccepts) == ConstructorRaised
  {
    var token := botId + [':'] + (before + [c] + after);
    DigitsHaveNoColon(botId);
    SecretIsIrrelevant(botId, before + [c] + after);
    assert token[|botId| + 1 + |before|] == c;
  }

  /** A run of digits holds no ':'. */
  lemma DigitsHaveNoColon(s: string)
    requires IsDigits(s)
    ensures ':' !in s
  {
  }

  /** Only the first ':' separates the bot id; whatever follows it, more ':'
      characters included, has no effect on the format verdict. */
  lemma {:induction false} SecretIsIrrelevant(botId: string, secret: string)
    requires ':' !in botId
    ensures CheckTokenFormat(botId + [':'] + secret)
         == (if IsDigits(botId) then WellFormed(botId) else BadBotId)
  {
    var token := botId + [':'] + secret;
    assert token[|botId|] == ':';
    var i := IndexOf(token, ':');
    assert i == |botId| by {
      if i < |botId| {
        assert false;
      }
      if i > |botId| {
        assert false;
      }
    }
    assert token[..i] == botId;
  }

  /** The bot id displayed at start-up, `token.split(':')[0]`. */
  function DisplayedBotId(token: string): string {
    Split(token, ':')[0]
  }

  /** The id displayed at start-up is the very prefix the format check accepted. */
  lemma DisplayedIdIsCheckedId(token: string)
    requires CheckTokenFormat(token).WellFormed?
    ensures DisplayedBotId(token) == CheckTokenFormat(token).botId
  {
    SplitHead(token, ':');
  }

  // ---------------------------------------------------------------------------
  // ADMIN_IDS: "id1, id2,,id3"
  // ---------------------------------------------------------------------------

  /** `xs` is `ys` with some elements dropped, the rest in their original order. */
  predicate IsSubsequence<T(==)>(xs: seq<T>, ys: seq<T>)
    decreases |ys|
  {
    if xs == [] then true
    else if ys == [] then false
    else if xs[0] == ys[0] then IsSubsequence(xs[1..], ys[1..])
    else IsSubsequence(xs, ys[1..])
  }

  /** `[p.strip() for p in ps]`. */
  function StripAll(ps: seq<string>): (r: seq<string>)
    ensures |r| == |ps|
    ensures forall k :: 0 <= k < |ps| ==> r[k] == Strip(ps[k])
  {
    seq(|ps|, k requires 0 <= k < |ps| => Strip(ps[k]))
  }

  /** `[p for p in ps if p]`: the non-empty pieces, in order. */
  function KeepNonBlank(ps: seq<string>): (r: seq<string>)
    ensures forall k :: 0 <= k < |r| ==> r[k] != [] && r[k] in ps
    ensures forall k :: 0 <= k < |ps| && ps[k] != [] ==> ps[k] in r
    ensures IsSubsequence(r, ps)
    ensures |r| <= |ps|
    ensures forall x :: x != [] ==> multiset(r)[x] == multiset(ps)[x]
  {
    if ps == [] then []
    else
      assert ps == [ps[0]] + ps[1..];
      if ps[0] != [] then [ps[0]] + KeepNonBlank(ps[1..])
      else KeepNonBlank(ps[1..])
  }

  /** A stripped piece of a comma split holds no comma. */
  lemma StripKeepsCommaFree(p: string)
    requires ',' !in p
    ensures ',' !in Strip(p)
  {
    var r := Strip(p);
    var a := SkipSpace(p, 0);
    if ',' in r {
      assert false;
    }
  }

  /** The admin list built in `main` from the `ADMIN_IDS` setting. */
  function ParseAdminIds(s: string): (ids: seq<string>)
    ensures s == [] ==> ids == []
    ensures forall k :: 0 <= k < |ids| ==> ids[k] != [] && Trimmed(ids[k]) && ',' !in ids[k]
    ensures IsSubsequence(ids, StripAll(Split(s, ',')))
    ensures forall k :: 0 <= k < |Split(s, ',')| && Strip(Split(s, ',')[k]) != [] ==>
              Strip(Split(s, ',')[k]) in ids
    ensures forall x :: x != [] ==> multiset(ids)[x] == multiset(StripAll(Split(s, ',')))[x]
  {
    if s == [] then []
    else
      var pieces := StripAll(Split(s, ','));
      forall k | 0 <= k < |pieces| ensures ',' !in pieces[k] {
        StripKeepsCommaFree(Split(s, ',')[k]);
      }
      KeepNonBlank(pieces)
  }

  lemma {:induction false} KeepNonBlankAll(ps: seq<string>)
    requires forall k :: 0 <= k < |ps| ==> ps[k] != []
    ensures KeepNonBlank(ps) == ps
  {
    if ps != [] {
      KeepNonBlankAll(ps[1..]);
    }
  }

  lemma StripAllTrimmed(ps: seq<string>)
    requires forall k :: 0 <= k < |ps| ==> Trimmed(ps[k])
    ensures StripAll(ps) == ps
  {
    forall k | 0 <= k < |ps| ensures Strip(ps[k]) == ps[k] {
      StripTrimmed(ps[k]);
    }
  }

  lemma ParseAdminIdsUnfold(s: string)
    requires s != []
    ensures ParseAdminIds(s) == KeepNonBlank(StripAll(Split(s, ',')))
  {
  }

  /** Writing clean ids into the setting as a comma-separated list and parsing
      it gives back exactly those ids, in the same order. */
  lemma ParseJoinedAdminIds(ids: seq<string>)
    requires forall k :: 0 <= k < |ids| ==> ids[k] != [] && Trimmed(ids[k]) && ',' !in ids[k]
    ensures ParseAdminIds(Join(ids, ',')) == ids
  {
    if ids != [] {
      var s := Join(ids, ',');
      assert s != [] by {
        if |ids| > 1 { assert s == ids[0] + [','] + Join(ids[1..], ','); }
      }
      SplitJoin(ids, ',');
      StripAllTrimmed(ids);
      KeepNonBlankAll(ids);
      ParseAdminIdsUnfold(s);
    }
  }
}
