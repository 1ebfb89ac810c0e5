/**
The keys of `native.env` by name: which lists they are in, that they are names, and that lists that must
not meet do not. Everything here is read off the literal texts.
*/
module NativeKeys {
  import opened EnvText
  import opened NativeEnv

  const RETIRED_KEYS: seq<string> := [
    "WAVEFORM_IAM_BASE_URL", "WAVEFORM_IAM_APP_ID", "WAVEFORM_IAM_APP_SECRET",
    "WAVEFORM_IAM_TOKEN_INTROSPECTION_PATH", "WAVEFORM_IAM_OBO_VERIFY_PATH", "WAVEFORM_IAM_AUDIENCE",
    "WAVEFORM_IAM_TTS_ACTION", "WAVEFORM_IAM_STT_ACTION", "WAVEFORM_IAM_TIMEOUT_SECONDS",
    "WAVEFORM_WEBHOOK_SIGNING_SECRET", "WAVEFORM_WEBHOOK_KEY_VERSION", "WAVEFORM_WEBHOOK_PUBLIC_URL",
    "WAVEFORM_HONEYCOMB_SERVICE_TOKEN", "SILICON_IAM_CLIENT_AUTO_UPDATE", "WAVEFORM_BRIEFCASE_CDN_ORIGIN",
    "WAVEFORM_BRIEFCASE_AUDIENCE", "BRIEFCASE_CLIENT_AUTO_UPDATE"]

  const ACCOUNTS_KEYS: seq<string> := [
    "ACCOUNTS_URL", "ACCOUNTS_API_URL", "WAVEFORM_APP_ID", "WAVEFORM_APP_SECRET",
    "WAVEFORM_ACCOUNTS_WEBHOOK_SECRET", "WAVEFORM_ACCOUNTS_WEBHOOK_SECRET_PREVIOUS",
    "WAVEFORM_ACCOUNTS_TIMEOUT_SECONDS", "WAVEFORM_PROOF_ISSUERS", "WAVEFORM_PUBLIC_URL",
    "WAVEFORM_BRIEFCASE_APP_ID", "WAVEFORM_BRIEFCASE_APP_FOLDER", "WAVEFORM_BRIEFCASE_BASE_URL",
    "WAVEFORM_BRIEFCASE_PERMANENT_ORIGIN"]

  const ORIGIN_KEYS: seq<string> := [
    "ACCOUNTS_URL", "ACCOUNTS_API_URL", "WAVEFORM_PUBLIC_URL", "WAVEFORM_BRIEFCASE_BASE_URL",
    "WAVEFORM_BRIEFCASE_PERMANENT_ORIGIN"]

  const HOOK_KEYS: seq<string> := ["WAVEFORM_ACCOUNTS_WEBHOOK_SECRET", "WAVEFORM_ACCOUNTS_WEBHOOK_SECRET_PREVIOUS"]

  /** The secrets the finished file must have: the app's, the webhook's and the encryption key. */
  const NEEDED_KEYS: seq<string> := [
    "WAVEFORM_APP_SECRET", "WAVEFORM_ACCOUNTS_WEBHOOK_SECRET", "WAVEFORM_ENCRYPTION_KEY"]

  // ---- The keys of the examples -----------------------------------------------------------------

  const ISSUERS := "WAVEFORM_PROOF_ISSUERS"
  const STORAGE := "WAVEFORM_BRIEFCASE_APP_ID"
  const SECRET := "WAVEFORM_APP_SECRET"
  const HOOK := "WAVEFORM_ACCOUNTS_WEBHOOK_SECRET"
  const EARLIER := Setting("WAVEFORM_IAM_APP_ID", "waveform")
  const SEAL := Setting("WAVEFORM_ENCRYPTION_KEY", "k")
  const BIND := Setting("WAVEFORM_BIND_ADDR", "10.0.0.1:8080")

  // ---- Retired keys and the operator's keys are names -------------------------------------------

  lemma SignInKeysAreNames()
    ensures Name("WAVEFORM_IAM_BASE_URL") && Name("WAVEFORM_IAM_APP_ID") && Name("WAVEFORM_IAM_APP_SECRET")
  {
  }

  lemma PathKeysAreNames()
    ensures Name("WAVEFORM_IAM_TOKEN_INTROSPECTION_PATH") && Name("WAVEFORM_IAM_OBO_VERIFY_PATH")
  {
  }

  lemma ActionKeysAreNames()
    ensures Name("WAVEFORM_IAM_TTS_ACTION") && Name("WAVEFORM_IAM_STT_ACTION")
  {
  }

  lemma AudienceKeysAreNames()
    ensures Name("WAVEFORM_IAM_AUDIENCE") && Name("WAVEFORM_IAM_TIMEOUT_SECONDS")
  {
  }

  lemma WebhookKeysAreNames()
    ensures Name("WAVEFORM_WEBHOOK_SIGNING_SECRET") && Name("WAVEFORM_WEBHOOK_KEY_VERSION")
  {
  }

  lemma ServiceKeysAreNames()
    ensures Name("WAVEFORM_WEBHOOK_PUBLIC_URL") && Name("WAVEFORM_HONEYCOMB_SERVICE_TOKEN")
  {
  }

  lemma ClientKeysAreNames()
    ensures Name("SILICON_IAM_CLIENT_AUTO_UPDATE") && Name("BRIEFCASE_CLIENT_AUTO_UPDATE")
  {
  }

  lemma BriefcaseKeysAreNames()
    ensures Name("WAVEFORM_BRIEFCASE_CDN_ORIGIN") && Name("WAVEFORM_BRIEFCASE_AUDIENCE")
  {
  }

  lemma RetiredKeysAreNames()
    ensures forall k :: k in RETIRED_KEYS ==> Name(k)
  {
    SignInKeysAreNames();
    PathKeysAreNames();
    ActionKeysAreNames();
    AudienceKeysAreNames();
    WebhookKeysAreNames();
    ServiceKeysAreNames();
    ClientKeysAreNames();
    BriefcaseKeysAreNames();
  }

  lemma RetiredKeysAreNotTheLimit()
    ensures BODY_LIMIT !in RETIRED_KEYS && BODY_LIMIT !in ACCOUNTS_KEYS
  {
  }

  lemma AppKeysAreNames()
    ensures Name("ACCOUNTS_URL") && Name("ACCOUNTS_API_URL") && Name("WAVEFORM_APP_ID") && Name("WAVEFORM_APP_SECRET")
  {
  }

  lemma HookKeysAreNames()
    ensures Name("WAVEFORM_ACCOUNTS_WEBHOOK_SECRET") && Name("WAVEFORM_ACCOUNTS_WEBHOOK_SECRET_PREVIOUS")
  {
  }

  lemma OwnKeysAreNames()
    ensures Name("WAVEFORM_PROOF_ISSUERS") && Name("WAVEFORM_PUBLIC_URL")
  {
  }

  lemma TimeoutKeyIsName()
    ensures Name("WAVEFORM_ACCOUNTS_TIMEOUT_SECONDS")
  {
  }

  lemma StorageKeysAreNames()
    ensures Name("WAVEFORM_BRIEFCASE_APP_ID") && Name("WAVEFORM_BRIEFCASE_APP_FOLDER")
  {
  }

  lemma OriginKeysAreNames()
    ensures Name("WAVEFORM_BRIEFCASE_BASE_URL") && Name("WAVEFORM_BRIEFCASE_PERMANENT_ORIGIN")
  {
  }

  lemma AccountsKeysAreNames()
    ensures forall k :: k in ACCOUNTS_KEYS ==> Name(k)
  {
    AppKeysAreNames();
    HookKeysAreNames();
    OwnKeysAreNames();
    TimeoutKeyIsName();
    StorageKeysAreNames();
    OriginKeysAreNames();
  }

  // ---- None of the operator's keys is retired ---------------------------------------------------

  lemma UrlKeysAreNotRetired()
    ensures "ACCOUNTS_URL" !in RETIRED_KEYS && "ACCOUNTS_API_URL" !in RETIRED_KEYS
    ensures "WAVEFORM_PUBLIC_URL" !in RETIRED_KEYS
  {
  }

  lemma AppKeysAreNotRetired()
    ensures "WAVEFORM_APP_ID" !in RETIRED_KEYS && "WAVEFORM_APP_SECRET" !in RETIRED_KEYS
  {
  }

  lemma HookKeysAreNotRetired()
    ensures "WAVEFORM_ACCOUNTS_WEBHOOK_SECRET" !in RETIRED_KEYS
    ensures "WAVEFORM_ACCOUNTS_WEBHOOK_SECRET_PREVIOUS" !in RETIRED_KEYS
  {
  }

  lemma OwnKeysAreNotRetired()
    ensures "WAVEFORM_ACCOUNTS_TIMEOUT_SECONDS" !in RETIRED_KEYS && "WAVEFORM_PROOF_ISSUERS" !in RETIRED_KEYS
  {
  }

  lemma FolderKeysAreNotRetired()
    ensures "WAVEFORM_BRIEFCASE_APP_ID" !in RETIRED_KEYS && "WAVEFORM_BRIEFCASE_APP_FOLDER" !in RETIRED_KEYS
  {
  }

  lemma StorageKeysAreNotRetired()
    ensures "WAVEFORM_BRIEFCASE_BASE_URL" !in RETIRED_KEYS && "WAVEFORM_BRIEFCASE_PERMANENT_ORIGIN" !in RETIRED_KEYS
  {
  }

  lemma AccountsKeysAreNotRetired()
    ensures forall k :: k in ACCOUNTS_KEYS ==> k !in RETIRED_KEYS
  {
    UrlKeysAreNotRetired();
    AppKeysAreNotRetired();
    HookKeysAreNotRetired();
    OwnKeysAreNotRetired();
    FolderKeysAreNotRetired();
    StorageKeysAreNotRetired();
  }

  // ---- The keys of the examples are apart -------------------------------------------------------

  lemma KeysDiffer()
    ensures SECRET != HOOK && SECRET != ISSUERS && HOOK != ISSUERS
    ensures SECRET != "WAVEFORM_APP_ID" && HOOK != "WAVEFORM_APP_ID" && ISSUERS != "WAVEFORM_APP_ID"
  {
    assert |SECRET| == 19 && |HOOK| == 32 && |ISSUERS| == 22 && |"WAVEFORM_APP_ID"| == 15;
  }

  lemma KeysAreNotOrigins()
    ensures SECRET !in ORIGIN_KEYS && HOOK !in ORIGIN_KEYS && ISSUERS !in ORIGIN_KEYS
  {
  }

  lemma KeysAreAccountsKeys()
    ensures SECRET in ACCOUNTS_KEYS && HOOK in ACCOUNTS_KEYS && ISSUERS in ACCOUNTS_KEYS
  {
    assert ACCOUNTS_KEYS[3] == SECRET && ACCOUNTS_KEYS[4] == HOOK && ACCOUNTS_KEYS[7] == ISSUERS;
  }

  lemma KeysAreNotHooks()
    ensures SECRET !in HOOK_KEYS && ISSUERS !in HOOK_KEYS
    ensures SECRET != "WAVEFORM_BRIEFCASE_APP_ID" && HOOK != "WAVEFORM_BRIEFCASE_APP_ID"
    ensures ISSUERS != "WAVEFORM_BRIEFCASE_APP_ID"
  {
    assert |"WAVEFORM_BRIEFCASE_APP_ID"| == 25;
  }

  lemma OldKeysAreNotWanted()
    ensures SEAL.key !in {SECRET, HOOK, ISSUERS, STORAGE, "ACCOUNTS_URL"}
    ensures BIND.key !in {SECRET, HOOK, ISSUERS, STORAGE, "ACCOUNTS_URL"}
  {
    assert |SEAL.key| == 23 && |BIND.key| == 18 && |SECRET| == 19 && |HOOK| == 32 && |ISSUERS| == 22 && |STORAGE| == 25;
    assert |"ACCOUNTS_URL"| == 12;
  }

  lemma CheckedKeysAreNotSet()
    ensures BODY_LIMIT !in {SECRET, HOOK, ISSUERS, STORAGE, "ACCOUNTS_URL"}
    ensures "WAVEFORM_APP_ID" !in {SECRET, HOOK, ISSUERS, STORAGE, "ACCOUNTS_URL"}
    ensures BODY_LIMIT !in {SEAL.key, BIND.key, STORAGE} && "WAVEFORM_APP_ID" !in {SEAL.key, BIND.key, STORAGE}
  {
    assert |BODY_LIMIT| == 30 && |"WAVEFORM_APP_ID"| == 15 && |SEAL.key| == 23 && |BIND.key| == 18;
    assert |SECRET| == 19 && |HOOK| == 32 && |ISSUERS| == 22 && |STORAGE| == 25 && |"ACCOUNTS_URL"| == 12;
  }

  lemma SealIsNotRetired()
    ensures SEAL.key !in RETIRED_KEYS
  {
  }

  lemma BindIsNotRetired()
    ensures BIND.key !in RETIRED_KEYS
  {
  }

  lemma EarlierIsRetired()
    ensures EARLIER.key in RETIRED_KEYS
  {
    assert RETIRED_KEYS[1] == EARLIER.key;
  }

  lemma EarlierIsAName()
    ensures Name(EARLIER.key) && Word(EARLIER.value)
  {
  }

  lemma SealIsAName()
    ensures Name(SEAL.key) && Word(SEAL.value)
  {
  }

  lemma BindIsAName()
    ensures Name(BIND.key) && Word(BIND.value)
  {
  }

  lemma SealKeyDiffers()
    ensures SEAL.key != BIND.key && SEAL.key != STORAGE && Unquoted(SEAL.value) != ""
    ensures STORAGE != SECRET && STORAGE != HOOK && STORAGE != ISSUERS
  {
    assert |SEAL.key| == 23 && |BIND.key| == 18 && |STORAGE| == 25 && |SECRET| == 19 && |HOOK| == 32 && |ISSUERS| == 22;
  }

  lemma EarlierKeyDiffers()
    ensures EARLIER.key !in {SEAL.key, BIND.key, STORAGE} && Unquoted(EARLIER.value) == EARLIER.value
  {
    assert |EARLIER.key| == 19 && |SEAL.key| == 23 && |BIND.key| == 18 && |STORAGE| == 25;
    assert EARLIER.value[0] == 'w';
  }
}
