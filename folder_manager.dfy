/**
 * The client-side folder helpers of `FolderManager`: name validation, the
 * choice of a free name, and path normalisation.
 */
module FolderManager {
  import opened Wrappers
  import opened JsString
  import FolderCreate

  const NameEmpty := "文件夹名称不能为空"
  const NameTooLong := "文件夹名称不能超过50个字符"
  const NameIllegal := "文件夹名称包含非法字符"
  const NameReserved := "文件夹名称不能使用系统保留名称"
  const MaxNameLength := 50

  /** The device names Windows reserves. */
  const Reserved: seq<string> :=
    ["CON", "PRN", "AUX", "NUL",
     "COM1", "COM2", "COM3", "COM4", "COM5", "COM6", "COM7", "COM8", "COM9",
     "LPT1", "LPT2", "LPT3", "LPT4", "LPT5", "LPT6", "LPT7", "LPT8", "LPT9"]

  /**
   * Membership in `Reserved`, spelled out: the four three-letter names, and
   * `COM` or `LPT` followed by one digit from 1 to 9.
   */
  predicate IsReserved(u: string) {
    || u == "CON" || u == "PRN" || u == "AUX" || u == "NUL"
    || (|u| == 4 && (u[..3] == "COM" || u[..3] == "LPT") && '1' <= u[3] <= '9')
  }

  lemma IsReservedListed(u: string)
    ensures IsReserved(u) <==> u in Reserved
  {
    ReservedAreListed();
    if |u| == 4 && (u[..3] == "COM" || u[..3] == "LPT") && '1' <= u[3] <= '9' {
      assert u == u[..3] + [u[3]];
      if u[..3] == "COM" {
        ComListed(u[3]);
      } else {
        LptListed(u[3]);
      }
    }
  }

  /** Every listed name passes the spelled-out test. */
  lemma ReservedAreListed()
    ensures forall i :: 0 <= i < |Reserved| ==> IsReserved(Reserved[i])
  {
    forall i | 0 <= i < |Reserved|
      ensures IsReserved(Reserved[i])
    {
      if i >= 4 {
        assert |Reserved[i]| == 4 && '1' <= Reserved[i][3] <= '9';
        assert Reserved[i][..3] == "COM" || Reserved[i][..3] == "LPT";
      }
    }
  }

  lemma ComListed(d: char)
    requires '1' <= d <= '9'
    ensures "COM" + [d] in Reserved
  {
    if d == '1' { assert "COM" + [d] == Reserved[4]; }
    else if d == '2' { assert "COM" + [d] == Reserved[5]; }
    else if d == '3' { assert "COM" + [d] == Reserved[6]; }
    else if d == '4' { assert "COM" + [d] == Reserved[7]; }
    else if d == '5' { assert "COM" + [d] == Reserved[8]; }
    else if d == '6' { assert "COM" + [d] == Reserved[9]; }
    else if d == '7' { assert "COM" + [d] == Reserved[10]; }
    else if d == '8' { assert "COM" + [d] == Reserved[11]; }
    else { assert "COM" + [d] == Reserved[12]; }
  }

  lemma LptListed(d: char)
    requires '1' <= d <= '9'
    ensures "LPT" + [d] in Reserved
  {
    if d == '1' { assert "LPT" + [d] == Reserved[13]; }
    else if d == '2' { assert "LPT" + [d] == Reserved[14]; }
    else if d == '3' { assert "LPT" + [d] == Reserved[15]; }
    else if d == '4' { assert "LPT" + [d] == Reserved[16]; }
    else if d == '5' { assert "LPT" + [d] == Reserved[17]; }
    else if d == '6' { assert "LPT" + [d] == Reserved[18]; }
    else if d == '7' { assert "LPT" + [d] == Reserved[19]; }
    else if d == '8' { assert "LPT" + [d] == Reserved[20]; }
    else { assert "LPT" + [d] == Reserved[21]; }
  }

  datatype NameCheck = Accepted(name: string) | Rejected(error: string)

  /** The test with the character class of illegal characters finds one. */
  predicate HasIllegal(t: string) {
    exists i :: 0 <= i < |t| && FolderCreate.Forbidden(t[i])
  }

  /** A trimmed name the helper accepts. */
  predicate Acceptable(t: string) {
    && 0 < |t| && Utf16Length(t) <= MaxNameLength
    && !HasIllegal(t)
    && !IsReserved(Upper(t))
  }

  /**
   * `validateFolderName`: a name is accepted, in its trimmed form, exactly
   * when the trimmed form is acceptable; otherwise the first failing rule
   * names the error.
   */
  function ValidateFolderName(name: Option<string>): (r: NameCheck)
    ensures r.Accepted? <==> name.Some? && Acceptable(Trim(name.value))
    ensures r.Accepted? ==> r.name == Trim(name.value)
    ensures (name.None? || Trim(name.value) == "") ==> r == Rejected(NameEmpty)
    ensures name.Some? && Utf16Length(Trim(name.value)) > MaxNameLength ==> r == Rejected(NameTooLong)
    ensures r == Rejected(NameReserved) ==>
              name.Some? && FolderCreate.ValidName(Trim(name.value)) && IsReserved(Upper(Trim(name.value)))
  {
    if name.None? || name.value == "" then Rejected(NameEmpty)
    else
      var t := Trim(name.value);
      if |t| == 0 then Rejected(NameEmpty)
      else if Utf16Length(t) > MaxNameLength then Rejected(NameTooLong)
      else if HasIllegal(t) then Rejected(NameIllegal)
      else if IsReserved(Upper(t)) then Rejected(NameReserved)
      else Accepted(t)
  }

  /**
   * The length limit counts UTF-16 code units: a trimmed name of 26 to 50
   * characters, all outside the Basic Multilingual Plane, is too long.
   */
  lemma AstralNameTooLong(name: string)
    requires |Trim(name)| > MaxNameLength / 2
    requires forall i :: 0 <= i < |Trim(name)| ==> Trim(name)[i] as int >= 0x1_0000
    ensures ValidateFolderName(Some(name)) == Rejected(NameTooLong)
  {
    AstralLength(Trim(name));
  }

  /** An accepted name is accepted again unchanged, and the create endpoint accepts it too. */
  lemma AcceptedStable(name: Option<string>)
    requires ValidateFolderName(name).Accepted?
    ensures var n := ValidateFolderName(name).name;
            && ValidateFolderName(Some(n)) == Accepted(n)
            && FolderCreate.ValidName(Trim(n))
  {
    var n := Trim(name.value);
    TrimIdempotent(name.value);
    assert Trim(n) == n && Acceptable(n);
    var r := ValidateFolderName(Some(n));
    assert r.Accepted? && r.name == n;
  }

  /** Reserved names are refused whatever their letter case. */
  lemma ReservedInAnyCase(name: string)
    requires IsReserved(Upper(name))
    ensures ValidateFolderName(Some(name)) == Rejected(NameReserved)
  {
    var u := Upper(name);
    ReservedChars(u);
    assert forall i :: 0 <= i < |name| ==> Plain(UpperChar(name[i])) by {
      forall i | 0 <= i < |name| ensures Plain(UpperChar(name[i])) {
        assert UpperChar(name[i]) == u[i];
      }
    }
    PlainNameClean(name);
    assert !HasIllegal(name);
  }

  /** A capital letter or a digit. */
  predicate Plain(c: char) {
    ('0' <= c <= '9') || ('A' <= c <= 'Z')
  }

  /** Reserved names are short and made of capital letters and digits. */
  lemma ReservedChars(w: string)
    requires IsReserved(w)
    ensures 3 <= |w| <= 4
    ensures forall i :: 0 <= i < |w| ==> Plain(w[i])
  {
  }

  /** A name whose capitals are all plain has no forbidden character and nothing to trim. */
  lemma PlainNameClean(name: string)
    requires forall i :: 0 <= i < |name| ==> Plain(UpperChar(name[i]))
    ensures Trim(name) == name
    ensures forall i :: 0 <= i < |name| ==> !FolderCreate.Forbidden(name[i])
  {
    forall i | 0 <= i < |name|
      ensures !FolderCreate.Forbidden(name[i]) && !IsTrimmable(name[i])
    {
      PlainChar(name[i]);
    }
    TrimClean(name);
  }

  lemma PlainChar(c: char)
    requires Plain(UpperChar(c))
    ensures !FolderCreate.Forbidden(c) && !IsTrimmable(c)
  {
  }

  // ---------------------------------------------------------------------
  // free names

  /** The `k`-th candidate: `baseName` itself, then `baseName (k)`. */
  function Candidate(baseName: string, k: nat): (r: string)
    ensures k > 0 ==> |r| > |baseName|
  {
    if k == 0 then baseName else baseName + " (" + Decimal(k) + ")"
  }

  lemma CandidateInjective(baseName: string, j: nat, k: nat)
    requires Candidate(baseName, j) == Candidate(baseName, k)
    ensures j == k
  {
    if j > 0 && k > 0 {
      var s := Candidate(baseName, j);
      assert s[|baseName| + 2 .. |s| - 1] == Decimal(j);
      assert Candidate(baseName, k)[|baseName| + 2 .. |s| - 1] == Decimal(k);
      DecimalInjective(j, k);
    }
  }

  lemma {:induction false} DistinctElements(s: seq<string>)
    ensures |set x | x in s| <= |s|
    decreases |s|
  {
    if |s| > 0 {
      var t := s[..|s| - 1];
      DistinctElements(t);
      assert (set x | x in s) == (set x | x in t) + {s[|s| - 1]};
    }
  }

  lemma SubsetCard(a: set<string>, b: set<string>)
    requires a <= b
    ensures |a| <= |b|
  {
    assert b == a + (b - a);
  }

  /** The first `n` candidates. */
  function Tried(baseName: string, n: nat): (r: set<string>)
    decreases n
  {
    if n == 0 then {} else Tried(baseName, n - 1) + {Candidate(baseName, n - 1)}
  }

  /** The first `n` candidates are `n` distinct names. */
  lemma {:induction false} TriedSize(baseName: string, n: nat)
    ensures |Tried(baseName, n)| == n
    ensures forall x :: x in Tried(baseName, n) ==> exists j :: 0 <= j < n && x == Candidate(baseName, j)
    decreases n
  {
    if n > 0 {
      TriedSize(baseName, n - 1);
      if Candidate(baseName, n - 1) in Tried(baseName, n - 1) {
        var j :| 0 <= j < n - 1 && Candidate(baseName, n - 1) == Candidate(baseName, j);
        CandidateInjective(baseName, j, n - 1);
      }
    }
  }

  /**
   * `generateUniqueName`: the first candidate not in `existing`. It is found
   * after at most `|existing|` rejected candidates, because the rejected
   * ones are distinct names all taken from `existing`.
   */
  method GenerateUniqueName(baseName: string, existing: seq<string>) returns (r: string)
    ensures r !in existing
    ensures exists k :: 0 <= k <= |existing| && r == Candidate(baseName, k)
                        && forall j :: 0 <= j < k ==> Candidate(baseName, j) in existing
  {
    r := baseName;
    var counter := 1;
    while r in existing
      invariant 1 <= counter <= |existing| + 1 && r == Candidate(baseName, counter - 1)
      invariant forall j :: 0 <= j < counter - 1 ==> Candidate(baseName, j) in existing
      decreases |existing| + 1 - counter
    {
      TakenBound(baseName, existing, counter);
      r := Candidate(baseName, counter);
      counter := counter + 1;
    }
  }

  /** When the first `n` candidates are all taken, `existing` holds at least `n` names. */
  lemma TakenBound(baseName: string, existing: seq<string>, n: nat)
    requires forall j :: 0 <= j < n ==> Candidate(baseName, j) in existing
    ensures n <= |existing|
  {
    var taken := set x | x in existing;
    TriedWithin(baseName, existing, n);
    TriedSize(baseName, n);
    SubsetCard(Tried(baseName, n), taken);
    DistinctElements(existing);
  }

  lemma {:induction false} TriedWithin(baseName: string, existing: seq<string>, n: nat)
    requires forall j :: 0 <= j < n ==> Candidate(baseName, j) in existing
    ensures Tried(baseName, n) <= set x | x in existing
    decreases n
  {
    if n > 0 {
      TriedWithin(baseName, existing, n - 1);
    }
  }

  // ---------------------------------------------------------------------
  // paths

  /** `replace(/\/+/g, '/')`: every run of slashes becomes one. */
  function Collapse(s: string): (r: string)
    ensures |r| <= |s|
    decreases |s|
  {
    if |s| == 0 then []
    else if |s| >= 2 && s[0] == '/' && s[1] == '/' then Collapse(s[1..])
    else [s[0]] + Collapse(s[1..])
  }

  /** No two adjacent slashes. */
  predicate SingleSlashes(s: string) {
    forall i :: 0 <= i < |s| - 1 ==> !(s[i] == '/' && s[i + 1] == '/')
  }

  lemma {:induction false} CollapseFirst(s: string)
    requires |s| > 0
    ensures |Collapse(s)| > 0 && Collapse(s)[0] == s[0]
    decreases |s|
  {
    if |s| >= 2 && s[0] == '/' && s[1] == '/' {
      CollapseFirst(s[1..]);
    }
  }

  lemma {:induction false} CollapseSingles(s: string)
    ensures SingleSlashes(Collapse(s))
    decreases |s|
  {
    if |s| > 0 {
      CollapseSingles(s[1..]);
      if !(|s| >= 2 && s[0] == '/' && s[1] == '/') && |s| >= 2 {
        CollapseFirst(s[1..]);
      }
    }
  }

  lemma {:induction false} CollapseNoop(s: string)
    requires SingleSlashes(s)
    ensures Collapse(s) == s
    decreases |s|
  {
    if |s| > 0 {
      CollapseNoop(s[1..]);
    }
  }

  /** The characters of `s` other than `/`, in order. */
  function Unslashed(s: string): string
    decreases |s|
  {
    if |s| == 0 then [] else (if s[0] == '/' then [] else [s[0]]) + Unslashed(s[1..])
  }

  lemma {:induction false} UnslashedConcat(a: string, b: string)
    ensures Unslashed(a + b) == Unslashed(a) + Unslashed(b)
    decreases |a|
  {
    if |a| == 0 {
      assert a + b == b;
    } else {
      assert (a + b)[1..] == a[1..] + b;
      UnslashedConcat(a[1..], b);
    }
  }

  /** What collapsing does to a path that starts with a slash. */
  lemma CollapsedPath(p: string)
    requires |p| > 0 && p[0] == '/'
    ensures var c := Collapse(p);
            && |c| > 0 && c[0] == '/' && SingleSlashes(c)
            && Unslashed(c) == Unslashed(p)
            && (SingleSlashes(p) ==> c == p)
  {
    CollapseFirst(p);
    CollapseSingles(p);
    CollapseUnslashed(p);
    if SingleSlashes(p) {
      CollapseNoop(p);
    }
  }

  /** Dropping a trailing slash drops no other character. */
  lemma DropSlashUnslashed(c: string)
    requires |c| > 0 && c[|c| - 1] == '/'
    ensures Unslashed(c[..|c| - 1]) == Unslashed(c)
  {
    assert c == c[..|c| - 1] + "/";
    UnslashedConcat(c[..|c| - 1], "/");
  }

  /** Collapsing runs of slashes keeps every other character, in order. */
  lemma {:induction false} CollapseUnslashed(s: string)
    ensures Unslashed(Collapse(s)) == Unslashed(s)
    decreases |s|
  {
    if |s| > 0 {
      CollapseUnslashed(s[1..]);
      if !(|s| >= 2 && s[0] == '/' && s[1] == '/') {
        UnslashedConcat([s[0]], Collapse(s[1..]));
      }
    }
  }

  /** A path as `formatPath` leaves it: a leading slash, single slashes, no trailing slash unless it is `/`. */
  predicate Formatted(s: string) {
    |s| > 0 && s[0] == '/' && SingleSlashes(s) && (s[|s| - 1] == '/' ==> s == "/")
  }

  /**
   * `formatPath`: `/` for an absent or empty path; otherwise a leading `/`
   * is ensured, runs of slashes are collapsed and one trailing slash is
   * removed unless the path is `/`.
   */
  function FormatPath(path: Option<string>): (r: string)
    ensures (path.None? || path.value == "") ==> r == "/"
    ensures |r| > 0 && r[0] == '/'
    ensures SingleSlashes(r)
    ensures r[|r| - 1] == '/' ==> r == "/"
    ensures Unslashed(r) == Unslashed(path.GetOr(""))
    ensures path.Some? && Formatted(path.value) ==> r == path.value
  {
    if path.None? || path.value == "" then "/"
    else
      var p := if path.value[0] == '/' then path.value else "/" + path.value;
      UnslashedConcat("/", path.value);
      CollapsedPath(p);
      DropTrailingSlash(Collapse(p))
  }

  /** The last step of `formatPath`: one trailing slash removed unless the path is `/`. */
  function DropTrailingSlash(c: string): (r: string)
    requires |c| > 0 && c[0] == '/' && SingleSlashes(c)
    ensures Formatted(r)
    ensures Unslashed(r) == Unslashed(c)
    ensures Formatted(c) ==> r == c
  {
    if |c| > 1 && c[|c| - 1] == '/' then
      assert c[|c| - 2] != '/';
      DropSlashUnslashed(c);
      c[..|c| - 1]
    else c
  }

  /** Formatting a formatted path changes nothing. */
  lemma FormatPathIdempotent(path: Option<string>)
    ensures FormatPath(Some(FormatPath(path))) == FormatPath(path)
  {
    CollapseNoop(FormatPath(path));
  }
}
