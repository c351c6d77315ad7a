/**
 * The sign-up page (src/app/signup/page.tsx): the user-agent classification sent along as
 * `deviceInfo`, and the client-side checks that run before the sign-up request.
 */
module SignupPage {
  import opened Common
  import opened Wire
  import opened Store
  import SignupApi

  const Browsers: set<string> := {"Firefox", "Chrome", "Safari", "Edge", "Opera", "Unknown"}
  const Systems: set<string> := {"Windows", "macOS", "Linux", "Android", "iOS", "Unknown"}
  const Devices: set<string> := {"Mobile", "Tablet", "Desktop"}

  /**
   * `getDeviceInfo`: each field is the first test of its if/else-if chain that the
   * user-agent string passes, with a fixed fallback.
   */
  method GetDeviceInfo(ua: string) returns (info: DeviceInfo)
    ensures info.browser in Browsers && info.os in Systems && info.device in Devices
    ensures info.browser == "Firefox" <==> Contains(ua, "Firefox")
    ensures info.browser == "Chrome" <==> !Contains(ua, "Firefox") && Contains(ua, "Chrome")
    ensures info.browser == "Safari" <==> !Contains(ua, "Firefox") && !Contains(ua, "Chrome") && Contains(ua, "Safari")
    ensures info.browser == "Edge" <==>
      !Contains(ua, "Firefox") && !Contains(ua, "Chrome") && !Contains(ua, "Safari") && Contains(ua, "Edge")
    ensures info.browser == "Opera" <==>
      !Contains(ua, "Firefox") && !Contains(ua, "Chrome") && !Contains(ua, "Safari") && !Contains(ua, "Edge")
      && Contains(ua, "Opera")
    ensures info.os == "Windows" <==> Contains(ua, "Windows")
    ensures info.os == "macOS" <==> !Contains(ua, "Windows") && Contains(ua, "Mac")
    ensures info.os == "Linux" <==> !Contains(ua, "Windows") && !Contains(ua, "Mac") && Contains(ua, "Linux")
    ensures info.os == "Android" <==>
      !Contains(ua, "Windows") && !Contains(ua, "Mac") && !Contains(ua, "Linux") && Contains(ua, "Android")
    ensures info.os == "iOS" <==>
      !Contains(ua, "Windows") && !Contains(ua, "Mac") && !Contains(ua, "Linux") && !Contains(ua, "Android")
      && (Contains(ua, "iOS") || Contains(ua, "iPhone"))
    ensures info.device == "Mobile" <==> Contains(ua, "Mobile")
    ensures info.device == "Tablet" <==> !Contains(ua, "Mobile") && Contains(ua, "Tablet")
  {
    var browser := "Unknown";
    var os := "Unknown";
    var device := "Desktop";

    if Contains(ua, "Firefox") {
      browser := "Firefox";
    } else if Contains(ua, "Chrome") {
      browser := "Chrome";
    } else if Contains(ua, "Safari") {
      browser := "Safari";
    } else if Contains(ua, "Edge") {
      browser := "Edge";
    } else if Contains(ua, "Opera") {
      browser := "Opera";
    }

    if Contains(ua, "Windows") {
      os := "Windows";
    } else if Contains(ua, "Mac") {
      os := "macOS";
    } else if Contains(ua, "Linux") {
      os := "Linux";
    } else if Contains(ua, "Android") {
      os := "Android";
    } else if Contains(ua, "iOS") || Contains(ua, "iPhone") {
      os := "iOS";
    }

    if Contains(ua, "Mobile") {
      device := "Mobile";
    } else if Contains(ua, "Tablet") {
      device := "Tablet";
    }

    info := DeviceInfo(browser, os, device);
  }

  /**
   * Chrome's user agent also names Safari, and so do those of Chromium-based Edge and
   * Opera: all of them are reported as Chrome.
   */
  method ChromeShadowsSafari(ua: string) returns (info: DeviceInfo)
    requires Contains(ua, "Chrome/") && Contains(ua, "Safari/") && !Contains(ua, "Firefox")
    ensures info.browser == "Chrome"
  {
    assert "Chrome" + "/" == "Chrome/";
    ContainsPrefix(ua, "Chrome", "/");
    info := GetDeviceInfo(ua);
  }

  /**
   * An iPhone's user agent says "like Mac OS X", so the Mac test fires first: an iPhone
   * without "Windows" in its user agent is reported as macOS, never as iOS.
   */
  method IPhoneReportedAsMac(ua: string) returns (info: DeviceInfo)
    requires Contains(ua, "iPhone") && Contains(ua, "Mac OS X") && !Contains(ua, "Windows")
    ensures info.os == "macOS" && info.os != "iOS"
  {
    assert "Mac" + " OS X" == "Mac OS X";
    ContainsPrefix(ua, "Mac", " OS X");
    info := GetDeviceInfo(ua);
  }

  /** Android user agents say "Linux; Android", so the Linux test fires first: Android is reported as Linux. */
  method AndroidReportedAsLinux(ua: string) returns (info: DeviceInfo)
    requires Contains(ua, "Linux; Android") && !Contains(ua, "Windows") && !Contains(ua, "Mac")
    ensures info.os == "Linux"
  {
    assert "Linux" + "; Android" == "Linux; Android";
    ContainsPrefix(ua, "Linux", "; Android");
    info := GetDeviceInfo(ua);
  }

  // ------------------------------------------------------------- the form

  /** The client's verdict on the two password fields: a mismatch is reported before the length. */
  function ClientError(password: string, confirmPassword: string): (r: Option<string>)
    ensures password != confirmPassword ==> r == Some("Passwords do not match")
    ensures password == confirmPassword && |password| < 6 ==> r == Some("Password must be at least 6 characters")
    ensures r.None? <==> password == confirmPassword && |password| >= 6
  {
    if password != confirmPassword then Some("Passwords do not match")
    else if |password| < 6 then Some("Password must be at least 6 characters")
    else None
  }

  /**
   * A request the client lets through always passes the route's length check; whether it
   * is accepted then depends only on the other fields and on the store.
   */
  lemma ClientCheckCoversServerLength(users: seq<UserDoc>, email: string, password: string, confirmPassword: string,
                                      name: string, fault: Option<SignupApi.JsError>)
    requires ClientError(password, confirmPassword).None?
    ensures SignupApi.Check(users, Some(email), Some(password), Some(name), fault)
            != Some(Fail(400, "Password must be at least 6 characters"))
  {
  }

  /** The body of the sign-up request. */
  datatype SignupRequest = SignupRequest(name: string, email: string, password: string, deviceInfo: Option<DeviceInfo>)

  /** The form's state. */
  class SignupForm {
    var name: string
    var email: string
    var password: string
    var confirmPassword: string
    var error: string
    var loading: bool
    var deviceInfo: Option<DeviceInfo>

    constructor (deviceInfo: Option<DeviceInfo>)
      ensures this.deviceInfo == deviceInfo
      ensures name == "" && email == "" && password == "" && confirmPassword == "" && error == "" && !loading
    {
      this.deviceInfo := deviceInfo;
      name, email, password, confirmPassword, error, loading := "", "", "", "", "", false;
    }

    /**
     * The start of `handleSubmit`: the error is cleared, then a client error is shown and no
     * request is made, or the form turns to loading and the request is made.
     */
    method Submit() returns (request: Option<SignupRequest>)
      modifies this`error, this`loading
      ensures var verdict := ClientError(password, confirmPassword);
        && (verdict.Some? ==> request.None? && error == verdict.value && loading == old(loading))
        && (verdict.None? ==> request == Some(SignupRequest(name, email, password, deviceInfo)) && error == "" && loading)
    {
      error := "";
      if password != confirmPassword {
        error := "Passwords do not match";
        return None;
      }
      if |password| < 6 {
        error := "Password must be at least 6 characters";
        return None;
      }
      loading := true;
      request := Some(SignupRequest(name, email, password, deviceInfo));
    }

    /**
     * The end of `handleSubmit`: `reply` is None when the request threw. A refusal shows the
     * route's error (or a fallback when it sent none); success redirects to the login page.
     * Loading ends in every case.
     */
    method Finish<T>(reply: Option<Reply<T>>) returns (redirect: bool)
      modifies this`error, this`loading
      ensures !loading
      ensures redirect <==> reply.Some? && reply.value.Ok?
      ensures reply.None? ==> error == "An error occurred. Please try again."
      ensures reply.Some? && reply.value.Fail? ==>
        error == if reply.value.error != "" then reply.value.error else "Failed to create account"
      ensures redirect ==> error == old(error)
    {
      redirect := false;
      if reply.None? {
        error := "An error occurred. Please try again.";
      } else if reply.value.Fail? {
        error := if reply.value.error != "" then reply.value.error else "Failed to create account";
      } else {
        redirect := true;
      }
      loading := false;
    }
  }
}
