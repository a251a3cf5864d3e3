/**
 * `verify_azure_login` of create_snap-v20240811.py: unlike common.py's `check_az_login`, it looks
 * at the exit status of `az account show` and, when that fails, runs `az login` and gives up if
 * that fails too. `main` returns before reading any input when the check gives up.
 */
module LegacyLogin {
  import Common

  /** How the check ends: already logged in, logged in by `az login`, or `AzureLoginError`. */
  datatype Login =
    | AlreadyIn
    | LoggedInNow
    | LoginFailed(reason: LoginError)

  /** The two messages of `AzureLoginError`. */
  datatype LoginError = CliMissing | LoginRefused

  function LoginErrorMessage(e: LoginError): string {
    match e
    case CliMissing => "Azure CLI (az) not found. Please install Azure CLI and try again."
    case LoginRefused => "Failed to log in to Azure. Please try logging in manually using 'az login'."
  }

  /**
   * `verify_azure_login`, given how `az account show` and `az login` end. A process that cannot be
   * started counts as the missing CLI (`FileNotFoundError`); `az login` only runs after a failing
   * `az account show`.
   */
  function VerifyAzureLogin(accountShow: Common.ProcessResult, login: Common.ProcessResult): (r: Login)
    ensures r == AlreadyIn <==> accountShow.Exited? && accountShow.code == 0
    ensures r == LoggedInNow <==> accountShow.Exited? && accountShow.code != 0 && login.Exited? && login.code == 0
    ensures r == LoginFailed(CliMissing) <==>
              accountShow.Raised? || (accountShow.Exited? && accountShow.code != 0 && login.Raised?)
    ensures r == LoginFailed(LoginRefused) <==>
              accountShow.Exited? && accountShow.code != 0 && login.Exited? && login.code != 0
  {
    match accountShow
    case Raised(_) => LoginFailed(CliMissing)
    case Exited(code, _, _) =>
      if code == 0 then AlreadyIn
      else
        match login
        case Raised(_) => LoginFailed(CliMissing)
        case Exited(loginCode, _, _) => if loginCode == 0 then LoggedInNow else LoginFailed(LoginRefused)
  }

  /** Whether the run goes on past the check. */
  predicate Proceeds(r: Login) {
    !r.LoginFailed?
  }

  /**
   * The two checks disagree exactly when `az account show` fails and `az login` cannot help, either
   * because the CLI is missing or because `az login` fails: common.py's check passes anyway, this
   * one stops the run.
   */
  lemma StricterThanCommonCheck(accountShow: Common.ProcessResult, login: Common.ProcessResult)
    ensures Common.CheckAzLogin(accountShow)
    ensures !Proceeds(VerifyAzureLogin(accountShow, login)) <==>
              !Common.LoggedIn(accountShow) && (accountShow.Raised? || !(login.Exited? && login.code == 0))
  {
  }
}
