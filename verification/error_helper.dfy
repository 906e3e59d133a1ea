/** The error classifier: a first-match keyword table over the lower-cased
    error text, and the fixed help text of each category. */
module ErrorHelper {
  import opened Text

  datatype ErrorType = ModelNotFound | AuthError | RateLimit | Timeout | ContentFilter | Unknown

  /** `getErrorType`, test for test as the source writes it: the chain of
      `if`s is the table below, same categories, same priority. */
  function GetErrorType(errorMessage: string): (t: ErrorType)
    ensures t == Classify(Rules, ToLower(errorMessage))
  {
    var lower := ToLower(errorMessage);
    RowsSpelled(lower);
    if Contains(lower, "model does not exist") || Contains(lower, "model not found") then ModelNotFound
    else if Contains(lower, "api key") || Contains(lower, "authentication") then AuthError
    else if Contains(lower, "rate limit") || Contains(lower, "too many requests") then RateLimit
    else if Contains(lower, "timeout") || Contains(lower, "timed out") then Timeout
    else if Contains(lower, "content filter") || Contains(lower, "filtered") then ContentFilter
    else Unknown
  }

  /** One row of the table: any keyword selects the category. */
  datatype Rule = Rule(keywords: seq<string>, category: ErrorType)

  /** The table in priority order; the first row that matches wins. */
  const Rules: seq<Rule> := [
    Rule(["model does not exist", "model not found"], ModelNotFound),
    Rule(["api key", "authentication"], AuthError),
    Rule(["rate limit", "too many requests"], RateLimit),
    Rule(["timeout", "timed out"], Timeout),
    Rule(["content filter", "filtered"], ContentFilter)
  ]

  /** Some keyword of the row occurs in `lower`. */
  predicate RuleMatches(r: Rule, lower: string) {
    exists k :: 0 <= k < |r.keywords| && Contains(lower, r.keywords[k])
  }

  /** The category of the first row in `rules` that matches. */
  function Classify(rules: seq<Rule>, lower: string): (t: ErrorType)
    ensures (forall i :: 0 <= i < |rules| ==> !RuleMatches(rules[i], lower)) ==> t == Unknown
    ensures forall i :: (0 <= i < |rules| && RuleMatches(rules[i], lower)
                         && forall j :: 0 <= j < i ==> !RuleMatches(rules[j], lower)) ==> t == rules[i].category
  {
    if rules == [] then Unknown
    else if RuleMatches(rules[0], lower) then rules[0].category
    else
      var t := Classify(rules[1..], lower);
      assert forall i :: 1 <= i < |rules| ==> rules[i] == rules[1..][i - 1];
      t
  }

  /** Each row of the table matches exactly when one of the two tests of
      the corresponding `if` succeeds. */
  lemma RowsSpelled(lower: string)
    ensures RuleMatches(Rules[0], lower) <==> Contains(lower, "model does not exist") || Contains(lower, "model not found")
    ensures RuleMatches(Rules[1], lower) <==> Contains(lower, "api key") || Contains(lower, "authentication")
    ensures RuleMatches(Rules[2], lower) <==> Contains(lower, "rate limit") || Contains(lower, "too many requests")
    ensures RuleMatches(Rules[3], lower) <==> Contains(lower, "timeout") || Contains(lower, "timed out")
    ensures RuleMatches(Rules[4], lower) <==> Contains(lower, "content filter") || Contains(lower, "filtered")
  {
    var rs := Rules;
    assert rs[0].keywords == ["model does not exist", "model not found"];
    assert rs[1].keywords == ["api key", "authentication"];
    assert rs[2].keywords == ["rate limit", "too many requests"];
    assert rs[3].keywords == ["timeout", "timed out"];
    assert rs[4].keywords == ["content filter", "filtered"];
    assert RuleMatches(rs[0], lower) <==> Contains(lower, "model does not exist") || Contains(lower, "model not found") by {
      assert rs[0].keywords[0] == "model does not exist" && rs[0].keywords[1] == "model not found";
    }
    assert RuleMatches(rs[1], lower) <==> Contains(lower, "api key") || Contains(lower, "authentication") by {
      assert rs[1].keywords[0] == "api key" && rs[1].keywords[1] == "authentication";
    }
    assert RuleMatches(rs[2], lower) <==> Contains(lower, "rate limit") || Contains(lower, "too many requests") by {
      assert rs[2].keywords[0] == "rate limit" && rs[2].keywords[1] == "too many requests";
    }
    assert RuleMatches(rs[3], lower) <==> Contains(lower, "timeout") || Contains(lower, "timed out") by {
      assert rs[3].keywords[0] == "timeout" && rs[3].keywords[1] == "timed out";
    }
    assert RuleMatches(rs[4], lower) <==> Contains(lower, "content filter") || Contains(lower, "filtered") by {
      assert rs[4].keywords[0] == "content filter" && rs[4].keywords[1] == "filtered";
    }
  }

  /** The ten keywords, in table order. */
  const Keywords: seq<string> := [
    "model does not exist", "model not found", "api key", "authentication", "rate limit",
    "too many requests", "timeout", "timed out", "content filter", "filtered"
  ]

  /** UNKNOWN exactly when none of the ten keywords occurs in the
      lower-cased message. */
  lemma UnknownIffNoKeyword(errorMessage: string)
    ensures GetErrorType(errorMessage) == Unknown <==>
            forall k :: 0 <= k < |Keywords| ==> !Contains(ToLower(errorMessage), Keywords[k])
  {
    var lower := ToLower(errorMessage);
    var ks := Keywords;
    assert ks[0] == "model does not exist" && ks[1] == "model not found" && ks[2] == "api key";
    assert ks[3] == "authentication" && ks[4] == "rate limit" && ks[5] == "too many requests";
    assert ks[6] == "timeout" && ks[7] == "timed out" && ks[8] == "content filter" && ks[9] == "filtered";
  }

  /** Upper- and lower-case ASCII letters are not told apart: two messages
      that agree after lower-casing get the same category, and lower-casing
      first changes nothing. */
  lemma CaseInsensitive(a: string, b: string)
    requires ToLower(a) == ToLower(b)
    ensures GetErrorType(a) == GetErrorType(b)
    ensures GetErrorType(ToLower(a)) == GetErrorType(a)
  {
    ToLowerIdempotent(a);
  }

  /** A message naming a rate limit and none of the earlier rows'
      keywords is a rate-limit error. */
  lemma RateLimitRow(errorMessage: string)
    requires Contains(ToLower(errorMessage), "rate limit")
    requires !Contains(ToLower(errorMessage), "model does not exist")
    requires !Contains(ToLower(errorMessage), "model not found")
    requires !Contains(ToLower(errorMessage), "api key")
    requires !Contains(ToLower(errorMessage), "authentication")
    ensures GetErrorType(errorMessage) == RateLimit
  {
  }

  /** "Rate LIMIT exceeded" is a rate-limit error. */
  lemma RateLimitMixedCase(m: string)
    requires m == "Rate LIMIT exceeded"
    ensures GetErrorType(m) == RateLimit
  {
    RateLimitExampleKeywords(m);
    RateLimitRow(m);
  }

  /** The keywords found in the lower-cased example. */
  lemma RateLimitExampleKeywords(m: string)
    requires m == "Rate LIMIT exceeded"
    ensures Contains(ToLower(m), "rate limit")
    ensures !Contains(ToLower(m), "model does not exist") && !Contains(ToLower(m), "model not found")
    ensures !Contains(ToLower(m), "api key") && !Contains(ToLower(m), "authentication")
  {
    ExampleHas(m, "rate limit");
    ExampleLacks(m, "model does not exist", 'o');
    ExampleLacks(m, "model not found", 'o');
    ExampleLacks(m, "api key", 'y');
    ExampleLacks(m, "authentication", 'o');
  }

  lemma ExampleHas(m: string, keyword: string)
    requires m == "Rate LIMIT exceeded" && keyword == "rate limit"
    ensures Contains(ToLower(m), keyword)
  {
    LowerExample();
    assert ToLower(m)[..|keyword|] == keyword;
  }

  lemma ExampleLacks(m: string, keyword: string, c: char)
    requires m == "Rate LIMIT exceeded"
    requires c in keyword && c !in "rate limit exceeded"
    ensures !Contains(ToLower(m), keyword)
  {
    LowerExample();
    MissingCharExcludes(ToLower(m), keyword, c);
  }

  lemma LowerExample()
    ensures ToLower("Rate LIMIT exceeded") == "rate limit exceeded"
  {
  }

  /** A message that mentions an API key and no missing model is
      AUTH_ERROR, whatever later row it also matches (a timeout, a rate
      limit): the earlier row wins. */
  lemma EarlierRowWins(errorMessage: string)
    requires Contains(ToLower(errorMessage), "api key")
    requires !Contains(ToLower(errorMessage), "model does not exist")
    requires !Contains(ToLower(errorMessage), "model not found")
    ensures GetErrorType(errorMessage) == AuthError
  {
  }

  /** A message that mentions a missing model is MODEL_NOT_FOUND, whatever
      else it mentions: the first row wins over all others. */
  lemma ModelRowFirst(errorMessage: string)
    requires Contains(ToLower(errorMessage), "model does not exist") || Contains(ToLower(errorMessage), "model not found")
    ensures GetErrorType(errorMessage) == ModelNotFound
  {
  }

  /** Title and ordered solutions shown for an error. */
  datatype Help = Help(title: string, solutions: seq<string>)

  /** `getHelpMessage`: fixed text per category. */
  function HelpFor(t: ErrorType): (h: Help)
    ensures t == ContentFilter ==> |h.solutions| == 3
    ensures t != ContentFilter ==> |h.solutions| == 4
    ensures h.title != ""
  {
    match t
    case ModelNotFound => Help("模型不存在错误", [
        "确保您输入的模型名称与API提供商的模型名称完全一致",
        "不同API提供商的模型名称不可混用（例如，不能在百度API中使用OpenAI的模型名称）",
        "检查您的API密钥是否有权限访问该模型",
        "尝试创建一个与您的API提供商匹配的新模型名称"])
    case AuthError => Help("身份验证错误", [
        "确保您的API密钥输入正确，没有多余的空格",
        "检查API密钥是否已过期或被撤销",
        "确认您的账户余额充足",
        "确保您使用了正确的API网址"])
    case RateLimit => Help("请求频率限制", [
        "减少请求频率",
        "等待几分钟后再试",
        "检查您的API使用限额",
        "考虑升级您的API套餐获取更高限额"])
    case Timeout => Help("请求超时", [
        "检查您的网络连接",
        "减少请求的max_tokens参数",
        "稍后再试",
        "尝试使用不同的模型"])
    case ContentFilter => Help("内容过滤", [
        "您的请求可能包含敏感内容被AI提供商过滤",
        "修改您的输入内容再次尝试",
        "如果您认为这是误判，请联系API提供商"])
    case Unknown => Help("未知错误", [
        "检查API网址是否正确",
        "确认您的请求格式与API提供商的要求一致",
        "查看浏览器控制台获取更多错误详情",
        "尝试刷新页面或重启应用"])
  }

  /** Each category has its own title, so the title identifies the category. */
  lemma HelpTitlesDistinct(a: ErrorType, b: ErrorType)
    requires HelpFor(a).title == HelpFor(b).title
    ensures a == b
  {
  }

  /** What the error panel shows for a message: its category's help. */
  function GetHelpMessage(errorMessage: string): (h: Help)
    ensures forall t :: h == HelpFor(t) <==> t == GetErrorType(errorMessage)
  {
    HelpIdentifies(GetErrorType(errorMessage));
    HelpFor(GetErrorType(errorMessage))
  }

  /** Only its own category shows a given help. */
  lemma HelpIdentifies(t: ErrorType)
    ensures forall u :: HelpFor(u) == HelpFor(t) <==> u == t
  {
    forall u | HelpFor(u) == HelpFor(t)
      ensures u == t
    {
      HelpTitlesDistinct(u, t);
    }
  }
}
