/** The local database of access/gitlab/database.go: byte keys in nested buckets, and the typed entries
    the rest of the program sees. A string stands for its bytes. */
module GitlabDatabase {
  import opened Common

  /** A uint64. */
  newtype IntID = n: int | 0 <= n < 0x1_0000_0000_0000_0000

  // ---- IDs as bytes and as text ----

  predicate IsBytes(data: string) {
    forall i :: 0 <= i < |data| ==> data[i] as int < 256
  }

  /** The len lowest base-256 digits of n, the highest first. */
  function BigEndian(n: nat, len: nat): (data: string)
    ensures |data| == len && IsBytes(data)
  {
    if len == 0 then [] else BigEndian(n / 256, len - 1) + [(n % 256) as char]
  }

  function FromBigEndian(data: string): nat {
    if data == [] then 0 else FromBigEndian(data[..|data| - 1]) * 256 + data[|data| - 1] as nat
  }

  function Power256(len: nat): nat {
    if len == 0 then 1 else 256 * Power256(len - 1)
  }

  lemma {:induction false} BigEndianRoundTrip(n: nat, len: nat)
    requires n < Power256(len)
    ensures FromBigEndian(BigEndian(n, len)) == n
    decreases len
  {
    if len > 0 {
      BigEndianRoundTrip(n / 256, len - 1);
      assert BigEndian(n, len)[..len - 1] == BigEndian(n / 256, len - 1);
    }
  }

  lemma {:induction false} FromBigEndianRoundTrip(data: string)
    requires IsBytes(data)
    ensures FromBigEndian(data) < Power256(|data|)
    ensures BigEndian(FromBigEndian(data), |data|) == data
    decreases |data|
  {
    if data != [] { FromBigEndianRoundTrip(data[..|data| - 1]); }
  }

  lemma EightBytes()
    ensures Power256(8) == 0x1_0000_0000_0000_0000
  {
    assert Power256(4) == 0x1_0000_0000;
  }

  /** Eight bytes, the most significant first. */
  method IntIDToBytes(id: IntID) returns (data: array<char>)
    ensures fresh(data) && data[..] == BigEndian(id as nat, 8)
  {
    data := new char[8](_ => '\0');
    var rest, i := id as nat, 8;
    while i > 0
      invariant 0 <= i <= 8 && data.Length == 8 && fresh(data)
      invariant BigEndian(id as nat, 8) == BigEndian(rest, i) + data[i..]
    {
      i := i - 1;
      data[i] := (rest % 256) as char;
      rest := rest / 256;
      assert data[i..] == [data[i]] + data[i + 1..];
    }
    assert data[0..] == data[..];
  }

  /** An absent value is ID 0; a present one is read from its first eight bytes, and fewer are a panic. */
  function BytesToIntID(data: Option<string>): (id: IntID)
    requires data.Some? ==> |data.value| >= 8 && IsBytes(data.value)
  {
    match data
    case None => 0
    case Some(bytes) =>
      FromBigEndianRoundTrip(bytes[..8]);
      EightBytes();
      FromBigEndian(bytes[..8]) as IntID
  }

  /** Every 64-bit ID survives being stored, and every eight bytes are the stored form of one ID. */
  lemma IntIDRoundTrip(id: IntID, bytes: string)
    ensures BytesToIntID(Some(BigEndian(id as nat, 8))) == id
    ensures |bytes| == 8 && IsBytes(bytes) ==> BigEndian(BytesToIntID(Some(bytes)) as nat, 8) == bytes
  {
    EightBytes();
    BigEndianRoundTrip(id as nat, 8);
    assert BigEndian(id as nat, 8)[..8] == BigEndian(id as nat, 8);
    if |bytes| == 8 && IsBytes(bytes) {
      FromBigEndianRoundTrip(bytes);
      assert bytes[..8] == bytes;
    }
  }

  /** The decimal form of an ID, as IntID.String and the verb %d write it. */
  function Decimal(n: nat): string {
    if n < 10 then [Digit(n)] else Decimal(n / 10) + [Digit(n % 10)]
  }

  function Digit(d: nat): char
    requires d < 10
  {
    (48 + d) as char
  }

  function FromDecimal(s: string): int {
    if s == "" then 0 else FromDecimal(s[..|s| - 1]) * 10 + (s[|s| - 1] as int - 48)
  }

  lemma {:induction false} DecimalRoundTrip(n: nat)
    ensures FromDecimal(Decimal(n)) == n
  {
    if n >= 10 {
      DecimalRoundTrip(n / 10);
      assert Decimal(n)[..|Decimal(n)| - 1] == Decimal(n / 10);
    }
  }

  // ---- Keys ----

  const HOOK_ID_KEY := "project-hook-id"

  function ProjectKey(id: IntID): string {
    "project:" + Decimal(id as nat)
  }

  function LabelKey(key: string): string {
    "label/" + key + ":name"
  }

  function RequestIDKey(issue: IntID): string {
    Decimal(issue as nat) + ":request-id"
  }

  /** The keys as they are on disk. */
  lemma KeyForms()
    ensures ProjectKey(7) == "project:7" && RequestIDKey(42) == "42:request-id"
    ensures LabelKey("approved") == "label/approved:name" && HOOK_ID_KEY == "project-hook-id"
  {
    assert Decimal(42) == "42";
  }

  lemma ProjectKeyInjective(p: IntID, q: IntID)
    requires ProjectKey(p) == ProjectKey(q)
    ensures p == q
  {
    assert ProjectKey(p)[8..] == Decimal(p as nat);
    assert ProjectKey(q)[8..] == Decimal(q as nat);
    DecimalRoundTrip(p as nat);
    DecimalRoundTrip(q as nat);
  }

  lemma LabelKeyInjective(k: string, l: string)
    requires LabelKey(k) == LabelKey(l)
    ensures k == l
  {
    assert |LabelKey(k)| == |k| + 11 && |LabelKey(l)| == |l| + 11;
    assert LabelKey(k)[6..6 + |k|] == k;
    assert LabelKey(l)[6..6 + |l|] == l;
  }

  lemma LabelKeyIsNotHookKey(k: string)
    ensures LabelKey(k) != HOOK_ID_KEY
  {
    assert LabelKey(k)[0] == 'l';
  }

  lemma RequestIDKeyInjective(i: IntID, j: IntID)
    requires RequestIDKey(i) == RequestIDKey(j)
    ensures i == j
  {
    assert RequestIDKey(i)[..|RequestIDKey(i)| - 11] == Decimal(i as nat);
    assert RequestIDKey(j)[..|RequestIDKey(j)| - 11] == Decimal(j as nat);
    DecimalRoundTrip(i as nat);
    DecimalRoundTrip(j as nat);
  }

  // ---- Buckets ----

  type Bucket = map<string, string>

  /** The whole file: the buckets of every project. */
  type Root = map<string, map<string, Bucket>>

  const SETTINGS_BUCKET_KEY := "settings"
  const ISSUES_BUCKET_KEY := "issues"

  function Get(bucket: Bucket, key: string): Option<string> {
    if key in bucket then Some(bucket[key]) else None
  }

  /** A missing value converts to the empty string. */
  function GetString(bucket: Bucket, key: string): string {
    if key in bucket then bucket[key] else ""
  }

  function ProjectBucket(root: Root, project: IntID): map<string, Bucket> {
    if ProjectKey(project) in root then root[ProjectKey(project)] else map[]
  }

  function NestedBucket(root: Root, project: IntID, name: string): Bucket {
    if name in ProjectBucket(root, project) then ProjectBucket(root, project)[name] else map[]
  }

  /** The file after a nested bucket was replaced, with both buckets created if they were missing. */
  function WithBucket(root: Root, project: IntID, name: string, bucket: Bucket): Root {
    root[ProjectKey(project) := ProjectBucket(root, project)[name := bucket]]
  }

  /** A write to one nested bucket of one project changes no other bucket of any project. */
  lemma WithBucketFrame(root: Root, project: IntID, name: string, bucket: Bucket, q: IntID, other: string)
    ensures NestedBucket(WithBucket(root, project, name, bucket), q, other)
         == if q == project && other == name then bucket else NestedBucket(root, q, other)
  {
    if ProjectKey(q) == ProjectKey(project) { ProjectKeyInjective(q, project); }
  }

  // ---- The typed entries ----

  /** The hook ID, where there is one, was written as eight bytes. */
  predicate SettingsOk(bucket: Bucket) {
    HOOK_ID_KEY in bucket ==> |bucket[HOOK_ID_KEY]| == 8 && IsBytes(bucket[HOOK_ID_KEY])
  }

  function HookIn(bucket: Bucket): IntID
    requires SettingsOk(bucket)
  {
    BytesToIntID(Get(bucket, HOOK_ID_KEY))
  }

  function LabelIn(bucket: Bucket, key: string): string {
    GetString(bucket, LabelKey(key))
  }

  function RequestIn(bucket: Bucket, issue: IntID): string {
    GetString(bucket, RequestIDKey(issue))
  }

  ghost predicate RootOk(root: Root) {
    forall p :: SettingsOk(NestedBucket(root, p, SETTINGS_BUCKET_KEY))
  }

  ghost function HookOf(root: Root, project: IntID): IntID
    requires RootOk(root)
  {
    HookIn(NestedBucket(root, project, SETTINGS_BUCKET_KEY))
  }

  function LabelOf(root: Root, project: IntID, key: string): string {
    LabelIn(NestedBucket(root, project, SETTINGS_BUCKET_KEY), key)
  }

  function RequestOf(root: Root, project: IntID, issue: IntID): string {
    RequestIn(NestedBucket(root, project, ISSUES_BUCKET_KEY), issue)
  }

  /** The settings bucket inside a transaction. */
  class Settings {
    var bucket: Bucket

    ghost predicate Valid() reads this { SettingsOk(bucket) }

    constructor (bucket: Bucket)
      requires SettingsOk(bucket)
      ensures Valid() && this.bucket == bucket
    {
      this.bucket := bucket;
    }

    /** The ID whose eight bytes are stored, and 0 if there are none. */
    method HookID() returns (id: IntID)
      requires Valid()
      ensures HOOK_ID_KEY in bucket ==> bucket[HOOK_ID_KEY] == BigEndian(id as nat, 8)
      ensures HOOK_ID_KEY !in bucket ==> id == 0
      ensures id == HookIn(bucket)
    {
      id := BytesToIntID(Get(bucket, HOOK_ID_KEY));
      if HOOK_ID_KEY in bucket { IntIDRoundTrip(id, bucket[HOOK_ID_KEY]); }
    }

    method SetHookID(id: IntID)
      requires Valid()
      modifies this
      ensures Valid() && HookIn(bucket) == id
      ensures forall k :: LabelIn(bucket, k) == LabelIn(old(bucket), k)
    {
      var data := IntIDToBytes(id);
      IntIDRoundTrip(id, []);
      bucket := bucket[HOOK_ID_KEY := data[..]];
      forall k ensures LabelIn(bucket, k) == LabelIn(old(bucket), k) { LabelKeyIsNotHookKey(k); }
    }

    method SetLabel(key: string, name: string)
      requires Valid()
      modifies this
      ensures Valid() && HookIn(bucket) == HookIn(old(bucket))
      ensures forall k :: LabelIn(bucket, k) == if k == key then name else LabelIn(old(bucket), k)
    {
      bucket := bucket[LabelKey(key) := name];
      LabelKeyIsNotHookKey(key);
      forall k ensures LabelIn(bucket, k) == if k == key then name else LabelIn(old(bucket), k) {
        if LabelKey(k) == LabelKey(key) { LabelKeyInjective(k, key); }
      }
    }

    /** Every requested key is in the result, with the empty string where nothing is stored. */
    method GetLabels(keys: seq<string>) returns (mapping: map<string, string>)
      ensures mapping == map k | k in keys :: LabelIn(bucket, k)
    {
      mapping := map[];
      for i := 0 to |keys|
        invariant mapping == map k | k in keys[..i] :: LabelIn(bucket, k)
      {
        mapping := mapping[keys[i] := LabelIn(bucket, keys[i])];
      }
    }

    /** The entries are written in no particular order. */
    method SetLabels(mapping: map<string, string>)
      requires Valid()
      modifies this
      ensures Valid() && HookIn(bucket) == HookIn(old(bucket))
      ensures forall k :: LabelIn(bucket, k) == if k in mapping then mapping[k] else LabelIn(old(bucket), k)
    {
      var rest := mapping.Keys;
      while rest != {}
        invariant Valid() && HookIn(bucket) == HookIn(old(bucket)) && rest <= mapping.Keys
        invariant forall k :: LabelIn(bucket, k)
                           == if k in mapping && k !in rest then mapping[k] else LabelIn(old(bucket), k)
        decreases |rest|
      {
        var key :| key in rest;
        SetLabel(key, mapping[key]);
        rest := rest - {key};
      }
    }
  }

  class DB {
    const projectID: IntID
    var root: Root

    ghost predicate Valid() reads this { RootOk(root) }

    /** OpenDB on a file with the given content. */
    constructor (projectID: IntID, root: Root)
      requires RootOk(root)
      ensures Valid() && this.projectID == projectID && this.root == root
    {
      this.projectID := projectID;
      this.root := root;
    }

    /** UpdateSettings up to the call of its function. */
    method BeginSettings() returns (settings: Settings)
      requires Valid()
      ensures fresh(settings) && settings.Valid()
      ensures settings.bucket == NestedBucket(root, projectID, SETTINGS_BUCKET_KEY)
    {
      settings := new Settings(NestedBucket(root, projectID, SETTINGS_BUCKET_KEY));
    }

    /** The end of UpdateSettings: everything the function wrote, or nothing if it or the commit failed. */
    method EndSettings(settings: Settings, succeeded: bool)
      requires Valid() && settings.Valid()
      modifies this
      ensures Valid() && (!succeeded ==> root == old(root))
      ensures succeeded ==>
                && (forall p :: HookOf(root, p) == if p == projectID then HookIn(settings.bucket) else HookOf(old(root), p))
                && (forall p, k :: LabelOf(root, p, k)
                              == if p == projectID then LabelIn(settings.bucket, k) else LabelOf(old(root), p, k))
                && forall p, i :: RequestOf(root, p, i) == RequestOf(old(root), p, i)
    {
      if succeeded {
        root := WithBucket(root, projectID, SETTINGS_BUCKET_KEY, settings.bucket);
        forall p, name
          ensures NestedBucket(root, p, name)
               == if p == projectID && name == SETTINGS_BUCKET_KEY then settings.bucket else NestedBucket(old(root), p, name)
        {
          WithBucketFrame(old(root), projectID, SETTINGS_BUCKET_KEY, settings.bucket, p, name);
        }
      }
    }

    /** UpdateIssues with SetRequestID, as onPendingRequest and onWebhookEvent do it. */
    method SetRequestID(issue: IntID, request: string, succeeded: bool)
      requires Valid()
      modifies this
      ensures Valid() && (!succeeded ==> root == old(root))
      ensures succeeded ==>
                && (forall p, i :: RequestOf(root, p, i)
                              == if p == projectID && i == issue then request else RequestOf(old(root), p, i))
                && (forall p :: HookOf(root, p) == HookOf(old(root), p))
                && forall p, k :: LabelOf(root, p, k) == LabelOf(old(root), p, k)
    {
      if succeeded {
        var before := NestedBucket(root, projectID, ISSUES_BUCKET_KEY);
        var bucket := before[RequestIDKey(issue) := request];
        root := WithBucket(root, projectID, ISSUES_BUCKET_KEY, bucket);
        forall p, name
          ensures NestedBucket(root, p, name)
               == if p == projectID && name == ISSUES_BUCKET_KEY then bucket else NestedBucket(old(root), p, name)
        {
          WithBucketFrame(old(root), projectID, ISSUES_BUCKET_KEY, bucket, p, name);
        }
        forall i ensures RequestIn(bucket, i) == if i == issue then request else RequestIn(before, i) {
          if RequestIDKey(i) == RequestIDKey(issue) { RequestIDKeyInjective(i, issue); }
        }
      }
    }

    /** ViewIssues with GetRequestID: a missing bucket is an error, a missing entry the empty string. */
    method GetRequestID(issue: IntID) returns (request: Option<string>)
      ensures request.Some? ==> request.value == RequestOf(root, projectID, issue)
      ensures request == None ==> RequestOf(root, projectID, issue) == ""
      ensures request == None <==> ISSUES_BUCKET_KEY !in ProjectBucket(root, projectID)
    {
      if ISSUES_BUCKET_KEY !in ProjectBucket(root, projectID) { return None; }
      request := Some(RequestOf(root, projectID, issue));
    }
  }
}
