/**
 * `AppConfig`: one GitHub installation of a platform account, the element of
 * the installation lists. Java objects of this class are compared by value,
 * so it is modelled as a datatype; a setter yields the updated value.
 */
module AppConfigs {
  import opened Wrappers
  import Java

  /** Both fields are nullable references in the source; `None` is `null`. */
  datatype AppConfig = AppConfig(githubAccount: Option<string>, installationId: Option<int>)

  /** An `Integer` field holds a 32-bit value or null. */
  predicate ValidInstallationId(id: Option<int>) {
    id.Some? ==> Java.IsInt(id.value)
  }

  /** The no-argument constructor leaves both fields null. */
  function Blank(): (c: AppConfig)
    ensures c.githubAccount.None? && c.installationId.None?
  {
    AppConfig(None, None)
  }

  /** The two-argument constructor stores exactly its arguments. */
  function Of(githubAccount: Option<string>, installationId: Option<int>): (c: AppConfig)
    requires ValidInstallationId(installationId)
    ensures c.githubAccount == githubAccount && c.installationId == installationId
  {
    AppConfig(githubAccount, installationId)
  }

  /**
   * One `githubAccounts` entry of the config response. A field is `None` when
   * it is missing or not of the JSON type the constructor reads.
   */
  datatype AccountJson = AccountJson(account: Option<string>, installationId: Option<int>)

  /**
   * The JSON constructor: `account` becomes the GitHub account and
   * `installationId` is narrowed to an `int`; a missing field throws (`None`).
   */
  function FromJson(j: AccountJson): (r: Option<AppConfig>)
    ensures r.Some? <==> j.account.Some? && j.installationId.Some?
    ensures r.Some? ==> r.value.githubAccount == j.account
    ensures r.Some? ==> r.value.installationId == Some(Java.WrapInt(j.installationId.value))
    ensures r.Some? ==> r.value.githubAccount.Some? && r.value.installationId.Some?
    ensures r.Some? ==> ValidInstallationId(r.value.installationId)
  {
    match (j.account, j.installationId)
    case (Some(account), Some(n)) => Some(AppConfig(Some(account), Some(Java.WrapInt(n))))
    case _ => None
  }

  /** `setGithubAccount` changes only the GitHub account. */
  function WithGithubAccount(c: AppConfig, githubAccount: Option<string>): (r: AppConfig)
    ensures r.githubAccount == githubAccount && r.installationId == c.installationId
  {
    c.(githubAccount := githubAccount)
  }

  /** `setInstallationId` changes only the installation id. */
  function WithInstallationId(c: AppConfig, installationId: Option<int>): (r: AppConfig)
    requires ValidInstallationId(installationId)
    ensures r.installationId == installationId && r.githubAccount == c.githubAccount
  {
    c.(installationId := installationId)
  }

  /** The argument of `equals(Object)`: null, an `AppConfig`, or an object of another class. */
  datatype JavaObject = Null | Config(config: AppConfig) | OtherClass

  /** `equals`: `Objects.equals` on both fields of another non-null `AppConfig`. */
  predicate Equals(c: AppConfig, o: JavaObject)
    ensures Equals(c, o) ==> o.Config?
  {
    match o
    case Config(d) => c.githubAccount == d.githubAccount && c.installationId == d.installationId
    case _ => false
  }

  lemma EqualsIffSameFields(c: AppConfig, o: JavaObject)
    ensures Equals(c, o) <==> o.Config? && o.config == c
  {
  }

  lemma EqualsReflexive(c: AppConfig)
    ensures Equals(c, Config(c))
  {
  }

  lemma EqualsSymmetric(c: AppConfig, d: AppConfig)
    ensures Equals(c, Config(d)) <==> Equals(d, Config(c))
  {
  }

  lemma EqualsTransitive(c: AppConfig, d: AppConfig, e: AppConfig)
    requires Equals(c, Config(d)) && Equals(d, Config(e))
    ensures Equals(c, Config(e))
  {
  }

  function Pow31(n: nat): (r: nat)
    ensures r >= 1
  {
    if n == 0 then 1 else 31 * Pow31(n - 1)
  }

  /** The documented value of `String.hashCode` before 32-bit wrap-around: the sum of s[i] * 31^(n-1-i). */
  function PolyHash(s: string): int {
    if s == [] then 0 else s[0] as int * Pow31(|s| - 1) + PolyHash(s[1..])
  }

  /** Appending a character multiplies the polynomial by 31 and adds the character. */
  lemma {:induction false} PolyHashSnoc(s: string)
    requires |s| > 0
    ensures PolyHash(s) == 31 * PolyHash(s[..|s| - 1]) + s[|s| - 1] as int
  {
    var n := |s|;
    var t := s[1..];
    if |t| > 0 {
      PolyHashSnoc(t);
      assert s[..n - 1][1..] == t[..|t| - 1];
      assert s[..n - 1][0] == s[0];
      var c := s[0] as int;
      assert Pow31(n - 1) == 31 * Pow31(n - 2);
      assert c * Pow31(n - 1) == 31 * (c * Pow31(n - 2));
    } else {
      assert s[..n - 1] == [];
    }
  }

  /** `String.hashCode`: h = 31 * h + c over the characters, in 32-bit arithmetic. */
  function StringHash(s: string): (h: int)
    ensures Java.IsInt(h)
    ensures h == Java.WrapInt(PolyHash(s))
  {
    if s == [] then 0
    else
      var init := s[..|s| - 1];
      var c := s[|s| - 1] as int;
      var prior := StringHash(init);
      PolyHashSnoc(s);
      Java.CongruentTimes31(prior, PolyHash(init), c);
      Java.WrapIntCongruent(31 * prior + c, PolyHash(s));
      Java.WrapInt(31 * prior + c)
  }

  /** The hash of a nullable field: 0 for null. */
  function AccountHash(a: Option<string>): int {
    match a case None => 0 case Some(s) => StringHash(s)
  }

  function IdHash(i: Option<int>): int {
    match i case None => 0 case Some(n) => n
  }

  /**
   * `Objects.hash(githubAccount, installationId)`: 31 * (31 * 1 + h(a)) + h(b)
   * in 32-bit arithmetic, which is 961 + 31 * h(a) + h(b) narrowed once.
   */
  function HashCode(c: AppConfig): (h: int)
    requires ValidInstallationId(c.installationId)
    ensures Java.IsInt(h)
    ensures h == Java.WrapInt(961 + 31 * AccountHash(c.githubAccount) + IdHash(c.installationId))
  {
    var accountHash := AccountHash(c.githubAccount);
    var idHash := IdHash(c.installationId);
    var inner := Java.WrapInt(31 * 1 + accountHash);
    Java.CongruentTimes31(inner, 31 + accountHash, idHash);
    Java.WrapIntCongruent(31 * inner + idHash, 961 + 31 * accountHash + idHash);
    Java.WrapInt(31 * inner + idHash)
  }

  /** Equal configs hash alike. */
  lemma EqualsImpliesSameHash(c: AppConfig, d: AppConfig)
    requires ValidInstallationId(c.installationId) && ValidInstallationId(d.installationId)
    requires Equals(c, Config(d))
    ensures HashCode(c) == HashCode(d)
  {
  }

  /** The blank config hashes to 31 * 31 = 961, and installation 7 without an account to 968. */
  lemma HashCodeExamples()
    ensures HashCode(Blank()) == 961
    ensures HashCode(AppConfig(None, Some(7))) == 968
  {
  }
}
