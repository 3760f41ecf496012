/**
 * The fixed words that appear in the API's paths, and the reading of one
 * path segment as a fixed word, a numeric id, or anything else.
 */
module ApiPaths {
  import opened Wrappers
  import opened Text

  datatype Word =
    | Email | SendCode | VerifyCode
    | Auth | RegisterPath | LoginPath | Me | Refresh | Wechat | Bind | Unbind
    | Resumes | Copy | Ai | Generate | Optimize
    | Templates | Categories | Favorite | Favorites | List

  function WordText(w: Word): string {
    match w
    case Email => "email"
    case SendCode => "send-code"
    case VerifyCode => "verify-code"
    case Auth => "auth"
    case RegisterPath => "register"
    case LoginPath => "login"
    case Me => "me"
    case Refresh => "refresh"
    case Wechat => "wechat"
    case Bind => "bind"
    case Unbind => "unbind"
    case Resumes => "resumes"
    case Copy => "copy"
    case Ai => "ai"
    case Generate => "generate"
    case Optimize => "optimize"
    case Templates => "templates"
    case Categories => "categories"
    case Favorite => "favorite"
    case Favorites => "favorites"
    case List => "list"
  }

  /** The word spelled `s`, if any. */
  function WordOf(s: string): (r: Option<Word>)
    ensures r.Some? ==> WordText(r.value) == s
  {
    if s == "email" then Some(Email)
    else if s == "send-code" then Some(SendCode)
    else if s == "verify-code" then Some(VerifyCode)
    else if s == "auth" then Some(Auth)
    else if s == "register" then Some(RegisterPath)
    else if s == "login" then Some(LoginPath)
    else if s == "me" then Some(Me)
    else if s == "refresh" then Some(Refresh)
    else if s == "wechat" then Some(Wechat)
    else if s == "bind" then Some(Bind)
    else if s == "unbind" then Some(Unbind)
    else if s == "resumes" then Some(Resumes)
    else if s == "copy" then Some(Copy)
    else if s == "ai" then Some(Ai)
    else if s == "generate" then Some(Generate)
    else if s == "optimize" then Some(Optimize)
    else if s == "templates" then Some(Templates)
    else if s == "categories" then Some(Categories)
    else if s == "favorite" then Some(Favorite)
    else if s == "favorites" then Some(Favorites)
    else if s == "list" then Some(List)
    else None
  }

  /** No two words are spelled alike, so each spelling reads back as its word. */
  lemma WordRoundTrip(w: Word)
    ensures WordOf(WordText(w)) == Some(w)
  {
    var r := WordOf(WordText(w));
    assert r.Some?;
    WordSpellingsDistinct(r.value, w);
  }

  lemma WordSpellingsDistinct(v: Word, w: Word)
    requires WordText(v) == WordText(w)
    ensures v == w
  {
    var s := WordText(w);
    assert |WordText(v)| == |s| && WordText(v)[0] == s[0];
    if |s| > 1 {
      assert WordText(v)[1] == s[1];
    }
    if |s| > 2 {
      assert WordText(v)[2] == s[2];
    }
    if |s| > 5 {
      assert WordText(v)[5] == s[5];
    }
    if |s| > 8 {
      assert WordText(v)[8] == s[8];
    }
  }

  /** A word is not a number. */
  lemma WordNotNumber(w: Word)
    ensures ParseDecimal(WordText(w)) == None
    ensures '/' !in WordText(w)
  {
    assert !IsDigit(WordText(w)[0]);
  }

  datatype Token = Fixed(word: Word) | Id(n: nat) | Text(text: string)

  /** How a router reads one segment: a number, else a known word, else free text. */
  function Tokenize(s: string): (t: Token)
    ensures t.Fixed? ==> WordText(t.word) == s
    ensures t.Id? ==> ParseDecimal(s) == Some(t.n)
    ensures t.Text? ==> t.text == s
  {
    if ParseDecimal(s).Some? then Id(ParseDecimal(s).value)
    else if WordOf(s).Some? then Fixed(WordOf(s).value)
    else Text(s)
  }

  function Tokens(segments: seq<string>): (ts: seq<Token>)
    ensures |ts| == |segments|
    ensures forall i | 0 <= i < |segments| :: ts[i] == Tokenize(segments[i])
  {
    if |segments| == 0 then [] else [Tokenize(segments[0])] + Tokens(segments[1..])
  }

  function TokenText(t: Token): string {
    match t
    case Fixed(w) => WordText(w)
    case Id(n) => NatToString(n)
    case Text(s) => s
  }

  lemma TokenizeWord(w: Word)
    ensures Tokenize(WordText(w)) == Fixed(w)
  {
    WordNotNumber(w);
    WordRoundTrip(w);
  }

  lemma TokenizeId(n: nat)
    ensures Tokenize(NatToString(n)) == Id(n)
  {
    ParseRendered(n);
  }

  /** The texts of a token list, one segment each. */
  function TokenTexts(ts: seq<Token>): (segments: seq<string>)
    ensures |segments| == |ts|
    ensures forall i | 0 <= i < |ts| :: segments[i] == TokenText(ts[i])
  {
    if |ts| == 0 then [] else [TokenText(ts[0])] + TokenTexts(ts[1..])
  }

  /** A route: fixed words and ids, each segment preceded by '/'. */
  function Route(ts: seq<Token>): string {
    Path(TokenTexts(ts))
  }

  predicate NoFreeText(ts: seq<Token>) {
    forall i | 0 <= i < |ts| :: !ts[i].Text?
  }

  lemma {:induction false} TokensOfTexts(ts: seq<Token>)
    requires NoFreeText(ts)
    ensures Tokens(TokenTexts(ts)) == ts
    ensures NoSlash(TokenTexts(ts))
  {
    if |ts| > 0 {
      TokensOfTexts(ts[1..]);
      match ts[0] {
        case Fixed(w) => TokenizeWord(w); WordNotNumber(w);
        case Id(n) => TokenizeId(n); RenderedHasNoSlash(n);
      }
      assert TokenTexts(ts)[1..] == TokenTexts(ts[1..]);
    }
  }

  /** Splitting a route at '/' and reading each segment gives back its tokens. */
  lemma RouteRoundTrip(ts: seq<Token>)
    requires NoFreeText(ts)
    ensures Split(Route(ts), '/') == [""] + TokenTexts(ts)
    ensures Tokens(Split(Route(ts), '/')[1..]) == ts
  {
    TokensOfTexts(ts);
    SplitPath(TokenTexts(ts));
    assert ([""] + TokenTexts(ts))[1..] == TokenTexts(ts);
  }
}
