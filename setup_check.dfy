/**
 * The setup-check page: eight configuration variables, of which seven are
 * required, the overall verdict and missing count derived from them, how each
 * value is shown (secrets masked), and which next steps are listed. The
 * process environment is a parameter.
 */
module SetupCheck {
  import opened Wrappers
  import Js
  import Text

  type Env = map<string, string>

  datatype Check = Check(name: string, variable: string, required: bool, masked: bool)

  /** The checks in the order the page lists them. */
  const Checks: seq<Check> := [
    Check("AWS Region", "AWS_REGION", true, false),
    Check("AWS Access Key", "AWS_ACCESS_KEY_ID", true, true),
    Check("AWS Secret Key", "AWS_SECRET_ACCESS_KEY", true, true),
    Check("AWS S3 Bucket", "AWS_S3_BUCKET", true, false),
    Check("AWS S3 Bucket URL", "AWS_S3_BUCKET_URL", true, false),
    Check("Database URL", "POSTGRES_URL", true, true),
    Check("Auth Secret", "AUTH_SECRET", true, true),
    Check("Max File Size", "MAX_FILE_SIZE", false, false)]

  /** `process.env[variable]` */
  function Value(env: Env, variable: string): (r: Option<string>) {
    if variable in env then Some(env[variable]) else None
  }

  /** `!!check.value` */
  predicate IsSet(env: Env, c: Check) {
    Js.Truthy(Value(env, c.variable))
  }

  /** `checks.filter(c => c.required).every(c => c.value)` */
  predicate AllRequired(checks: seq<Check>, env: Env)
    decreases |checks|
  {
    |checks| == 0 || ((checks[0].required ==> IsSet(env, checks[0])) && AllRequired(checks[1..], env))
  }

  /** `checks.filter(c => c.required && !c.value).length` */
  function MissingCount(checks: seq<Check>, env: Env): (r: nat)
    ensures r <= |checks|
    decreases |checks|
  {
    if |checks| == 0 then 0
    else (if checks[0].required && !IsSet(env, checks[0]) then 1 else 0) + MissingCount(checks[1..], env)
  }

  /** The required checks, in order. */
  function Required(checks: seq<Check>): (r: seq<Check>)
    decreases |checks|
  {
    if |checks| == 0 then []
    else (if checks[0].required then [checks[0]] else []) + Required(checks[1..])
  }

  /** The verdict and the count agree: everything required is set exactly when nothing is missing. */
  lemma {:induction false} AllRequiredIffNoneMissing(checks: seq<Check>, env: Env)
    ensures AllRequired(checks, env) <==> MissingCount(checks, env) == 0
    decreases |checks|
  {
    if |checks| > 0 {
      AllRequiredIffNoneMissing(checks[1..], env);
    }
  }

  /** Only required checks can be missing, and each unset required one is counted. */
  lemma {:induction false} MissingAtMostRequired(checks: seq<Check>, env: Env)
    ensures MissingCount(checks, env) <= |Required(checks)|
    ensures (forall k :: 0 <= k < |checks| && checks[k].required ==> !IsSet(env, checks[k]))
      ==> MissingCount(checks, env) == |Required(checks)|
    decreases |checks|
  {
    if |checks| > 0 {
      MissingAtMostRequired(checks[1..], env);
      if forall k :: 0 <= k < |checks| && checks[k].required ==> !IsSet(env, checks[k]) {
        assert forall k :: 0 <= k < |checks[1..]| && checks[1..][k].required ==> !IsSet(env, checks[1..][k]) by {
          forall k | 0 <= k < |checks[1..]| && checks[1..][k].required
            ensures !IsSet(env, checks[1..][k])
          {
            assert checks[1..][k] == checks[k + 1];
          }
        }
      }
    }
  }

  /** Seven of the eight checks are required; only the file-size limit is not. */
  lemma SevenRequired()
    ensures |Required(Checks)| == 7
    ensures forall k :: 0 <= k < |Checks| ==> (Checks[k].required <==> Checks[k].variable != "MAX_FILE_SIZE")
  {
  }

  /** Setting or clearing MAX_FILE_SIZE changes neither the verdict nor the count. */
  lemma {:induction false} OptionalIgnored(checks: seq<Check>, env: Env, value: string)
    requires forall k :: 0 <= k < |checks| && checks[k].variable == "MAX_FILE_SIZE" ==> !checks[k].required
    ensures MissingCount(checks, env[("MAX_FILE_SIZE") := value]) == MissingCount(checks, env)
    ensures MissingCount(checks, env - {"MAX_FILE_SIZE"}) == MissingCount(checks, env)
    ensures AllRequired(checks, env[("MAX_FILE_SIZE") := value]) == AllRequired(checks, env)
    decreases |checks|
  {
    if |checks| > 0 {
      assert forall k :: 0 <= k < |checks[1..]| ==> checks[1..][k] == checks[k + 1];
      OptionalIgnored(checks[1..], env, value);
      AllRequiredIffNoneMissing(checks, env);
      AllRequiredIffNoneMissing(checks, env[("MAX_FILE_SIZE") := value]);
    }
  }

  const Bullets := "••••••••••••••••"
  const NotSet := "Not set"

  /** `check.masked && check.value ? bullets : check.value || 'Not set'` */
  function DisplayValue(c: Check, value: Option<string>): (r: string)
    ensures !Js.Truthy(value) ==> r == NotSet
    ensures Js.Truthy(value) && c.masked ==> r == Bullets
    ensures Js.Truthy(value) && !c.masked ==> r == value.value
  {
    if c.masked && Js.Truthy(value) then Bullets else Js.Or(value, NotSet)
  }

  /** The description under the overall verdict. */
  function Summary(allRequired: bool, missing: nat): (r: string) {
    if allRequired then "All required environment variables are set"
    else Text.NatToString(missing) + " required variable" + (if missing != 1 then "s" else "") + " missing"
  }

  /** The plural ending is dropped exactly for one missing variable. */
  lemma SummaryPlural(missing: nat)
    ensures Summary(false, 1) == "1 required variable missing"
    ensures missing != 1 ==> Summary(false, missing) == Text.NatToString(missing) + " required variables missing"
  {
    assert Text.NatToString(1) == "1";
  }

  /** The entries of the next-steps list. */
  datatype Step = AddDatabaseUrl | AddAwsCredentials | GenerateAuthSecret | Restart | RunMigration

  /** The steps listed: one per missing database URL, access key or auth secret, then two fixed ones. */
  function NextSteps(env: Env): (r: seq<Step>)
    ensures |r| >= 2 && r[|r| - 2..] == [Restart, RunMigration]
    ensures AddDatabaseUrl in r <==> !Js.Truthy(Value(env, "POSTGRES_URL"))
    ensures AddAwsCredentials in r <==> !Js.Truthy(Value(env, "AWS_ACCESS_KEY_ID"))
    ensures GenerateAuthSecret in r <==> !Js.Truthy(Value(env, "AUTH_SECRET"))
  {
    var db := !Js.Truthy(Value(env, "POSTGRES_URL"));
    var aws := !Js.Truthy(Value(env, "AWS_ACCESS_KEY_ID"));
    var auth := !Js.Truthy(Value(env, "AUTH_SECRET"));
    StepsContain(db, aws, auth);
    Steps(db, aws, auth)
  }

  function Steps(db: bool, aws: bool, auth: bool): (r: seq<Step>) {
    (if db then [AddDatabaseUrl] else []) + (if aws then [AddAwsCredentials] else [])
    + (if auth then [GenerateAuthSecret] else []) + [Restart, RunMigration]
  }

  lemma StepsContain(db: bool, aws: bool, auth: bool)
    ensures var r := Steps(db, aws, auth);
      |r| >= 2 && r[|r| - 2..] == [Restart, RunMigration]
      && (AddDatabaseUrl in r <==> db) && (AddAwsCredentials in r <==> aws) && (GenerateAuthSecret in r <==> auth)
  {
    var r := Steps(db, aws, auth);
    var head := (if db then [AddDatabaseUrl] else []) + (if aws then [AddAwsCredentials] else [])
      + (if auth then [GenerateAuthSecret] else []);
    assert r == head + [Restart, RunMigration];
    assert r[|r| - 2..] == [Restart, RunMigration];
  }

  datatype Row = Row(name: string, display: string, isSet: bool, requiredBadge: bool)

  datatype Page = Page(complete: bool, summary: string, rows: seq<Row>, nextSteps: Option<seq<Step>>, readyCard: bool)

  function Render(env: Env): (r: Page)
    ensures r.complete <==> MissingCount(Checks, env) == 0
    ensures r.readyCard <==> r.nextSteps.None?
    ensures r.readyCard <==> r.complete
    ensures |r.rows| == |Checks|
    ensures forall k :: 0 <= k < |Checks| ==>
      (r.rows[k].name == Checks[k].name
      && r.rows[k].isSet == IsSet(env, Checks[k]) && r.rows[k].requiredBadge == Checks[k].required)
  {
    AllRequiredIffNoneMissing(Checks, env);
    var all := AllRequired(Checks, env);
    Page(all, Summary(all, MissingCount(Checks, env)),
      seq(|Checks|, k requires 0 <= k < |Checks| =>
        Row(Checks[k].name, DisplayValue(Checks[k], Value(env, Checks[k].variable)),
            IsSet(env, Checks[k]), Checks[k].required)),
      if all then None else Some(NextSteps(env)),
      all)
  }

  /** A missing bucket alone makes the page incomplete, yet lists only the two fixed steps. */
  lemma MissingBucketHasNoStep(env: Env)
    requires forall k :: 0 <= k < |Checks| && Checks[k].variable != "AWS_S3_BUCKET" ==> IsSet(env, Checks[k])
    requires "AWS_S3_BUCKET" !in env
    ensures var p := Render(env);
      !p.complete && p.nextSteps == Some([Restart, RunMigration]) && p.summary == "1 required variable missing"
  {
    assert Checks[5].variable == "POSTGRES_URL" && IsSet(env, Checks[5]);
    assert Checks[1].variable == "AWS_ACCESS_KEY_ID" && IsSet(env, Checks[1]);
    assert Checks[6].variable == "AUTH_SECRET" && IsSet(env, Checks[6]);
    assert !IsSet(env, Checks[3]);
    assert MissingCount(Checks, env) == 1 by {
      assert Checks[3].variable == "AWS_S3_BUCKET";
      assert forall k :: 0 <= k < |Checks| && k != 3 ==> IsSet(env, Checks[k]) || !Checks[k].required;
      MissingCountOfChecks(env);
    }
    SummaryPlural(1);
  }

  /** The count over the page's own list, check by check. */
  lemma MissingCountOfChecks(env: Env)
    ensures MissingCount(Checks, env) ==
      (if IsSet(env, Checks[0]) then 0 else 1) + (if IsSet(env, Checks[1]) then 0 else 1)
      + (if IsSet(env, Checks[2]) then 0 else 1) + (if IsSet(env, Checks[3]) then 0 else 1)
      + (if IsSet(env, Checks[4]) then 0 else 1) + (if IsSet(env, Checks[5]) then 0 else 1)
      + (if IsSet(env, Checks[6]) then 0 else 1)
  {
    assert MissingCount(Checks[7..], env) == 0 by {
      assert Checks[8..] == [];
      MissingCountFrom(Checks, env, 7);
    }
    assert MissingCount(Checks[6..], env) == (if IsSet(env, Checks[6]) then 0 else 1) + MissingCount(Checks[7..], env) by {
      MissingCountFrom(Checks, env, 6);
    }
    assert MissingCount(Checks[5..], env) == (if IsSet(env, Checks[5]) then 0 else 1) + MissingCount(Checks[6..], env) by {
      MissingCountFrom(Checks, env, 5);
    }
    assert MissingCount(Checks[4..], env) == (if IsSet(env, Checks[4]) then 0 else 1) + MissingCount(Checks[5..], env) by {
      MissingCountFrom(Checks, env, 4);
    }
    assert MissingCount(Checks[3..], env) == (if IsSet(env, Checks[3]) then 0 else 1) + MissingCount(Checks[4..], env) by {
      MissingCountFrom(Checks, env, 3);
    }
    assert MissingCount(Checks[2..], env) == (if IsSet(env, Checks[2]) then 0 else 1) + MissingCount(Checks[3..], env) by {
      MissingCountFrom(Checks, env, 2);
    }
    assert MissingCount(Checks[1..], env) == (if IsSet(env, Checks[1]) then 0 else 1) + MissingCount(Checks[2..], env) by {
      MissingCountFrom(Checks, env, 1);
    }
    assert MissingCount(Checks[0..], env) == (if IsSet(env, Checks[0]) then 0 else 1) + MissingCount(Checks[1..], env) by {
      MissingCountFrom(Checks, env, 0);
    }
    assert Checks[0..] == Checks;
  }

  /** Helper: the count from position `i` is the check at `i` plus the count after it. */
  lemma MissingCountFrom(checks: seq<Check>, env: Env, i: nat)
    requires i < |checks|
    ensures MissingCount(checks[i..], env)
      == (if checks[i].required && !IsSet(env, checks[i]) then 1 else 0) + MissingCount(checks[i + 1..], env)
  {
    assert checks[i..][1..] == checks[i + 1..];
  }
}
