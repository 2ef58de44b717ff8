/** The error value the validator returns and the constructors that build it
    (snap_validator_errors/errors.go). */
module SnapErrors {

  /** `ErrorValidation`: the taxonomy code, the service-specific variant of it, the
      human-readable message and the Go name of the offending field. */
  datatype ErrorValidation = ErrorValidation(code: string, snapCode: string, message: string, fieldName: string)

  /** `(*ErrorValidation).Error()`. */
  function ErrorText(e: ErrorValidation): string {
    e.message
  }

  /** The service-code transform: a code longer than four characters becomes its first
      three characters, then the service code, then its fourth and fifth characters;
      a shorter code is kept. */
  function SpliceServiceCode(code: string, serviceCode: string): (snap: string)
    ensures |code| <= 4 ==> snap == code
    ensures |code| > 4 ==> |snap| == 5 + |serviceCode|
    ensures |code| > 4 ==> snap[..3] == code[..3] && snap[3..3 + |serviceCode|] == serviceCode
                           && snap[3 + |serviceCode|..] == code[3..5]
  {
    if |code| > 4 then code[..3] + serviceCode + code[3..5] else code
  }

  /** `NewErrorSnap`: the default message for the code followed by a space and the label. */
  function NewErrorSnap(code: string, labelText: string, fieldName: string, serviceCode: string): (e: ErrorValidation)
    ensures e.code == code && e.fieldName == fieldName
    ensures e.snapCode == SpliceServiceCode(code, serviceCode)
    ensures e.message == GetSnapMessage(code) + " " + labelText
  {
    ErrorValidation(code, SpliceServiceCode(code, serviceCode), GetSnapMessage(code) + " " + labelText, fieldName)
  }

  /** `NewError`: no service code and no label. */
  function NewError(code: string, fieldName: string): (e: ErrorValidation)
    ensures e.code == code && e.snapCode == code && e.fieldName == fieldName
    ensures e.message == GetSnapMessage(code)
  {
    ErrorValidation(code, code, GetSnapMessage(code), fieldName)
  }

  /** The codes the default message table knows. */
  const KnownCodes: set<string> := {
      "20000", "20200", "40000", "40001", "40002", "40100", "40101", "40102", "40103", "40104",
      "40300", "40301", "40302", "40303", "40304", "40305", "40306", "40307", "40308", "40309",
      "40310", "40311", "40312", "40313", "40314", "40315", "40316", "40317", "40318", "40319",
      "40320", "40321", "40322", "40323", "40400", "40401", "40402", "40403", "40404", "40405",
      "40406", "40407", "40408", "40409", "40410", "40411", "40412", "40413", "40414", "40415",
      "40416", "40417", "40418", "40419", "40500", "40501", "40900", "40901", "42900", "50000",
      "50001", "50002", "50400"
  }

  /** `GetSnapMessage`: the default English message of a code. */
  function GetSnapMessage(code: string): string
  {
    match code
    case "20000" => "Successful"
    case "20200" => "Request In Progress"
    case "40000" => "Bad Request"
    case "40001" => "Invalid Field Format"
    case "40002" => "Missing Mandatory Field"
    case "40100" => "Unauthorized"
    case "40101" => "Invalid Token (B2B)"
    case "40102" => "Invalid Customer Token"
    case "40103" => "Token Not Found (B2B)"
    case "40104" => "Customer Token Not Found"
    case "40300" => "Transaction Expired"
    case "40301" => "Feature Not Allowed"
    case "40302" => "Exceeds Transaction Amount Limit"
    case "40303" => "Suspected Fraud"
    case "40304" => "Activity Count Limit Exceeded"
    case "40305" => "Do Not Honor"
    case "40306" => "Feature Not Allowed At This Time"
    case "40307" => "Card Blocked"
    case "40308" => "Card Expired"
    case "40309" => "Dormant Account"
    case "40310" => "Need To Set Token Limit"
    case "40311" => "OTP Blocked"
    case "40312" => "OTP Lifetime Expired"
    case "40313" => "OTP Sent To Cardholer"
    case "40314" => "Insufficient Funds"
    case "40315" => "Transaction Not Permitted"
    case "40316" => "Suspend Transaction"
    case "40317" => "Token Limit Exceeded"
    case "40318" => "Inactive Card/Account/Customer"
    case "40319" => "Merchant Blacklisted"
    case "40320" => "Merchant Limit Exceed"
    case "40321" => "Set Limit Not Allowed"
    case "40322" => "Token Limit Invalid"
    case "40323" => "Account Limit Exceed"
    case "40400" => "Invalid Transaction Status"
    case "40401" => "Transaction Not Found"
    case "40402" => "Invalid Routing"
    case "40403" => "Bank Not Supported By Switch"
    case "40404" => "Transaction Cancelled"
    case "40405" => "Merchant Is Not Registered For Card Registration Services"
    case "40406" => "Need To Request OTP"
    case "40407" => "Journey Not Found"
    case "40408" => "Invalid Merchant"
    case "40409" => "No Issuer"
    case "40410" => "Invalid API Transition"
    case "40411" => "Invalid Card/Account/Customer/Virtual Account"
    case "40412" => "Invalid Bill/Virtual Account"
    case "40413" => "Invalid Amount"
    case "40414" => "Paid Bill"
    case "40415" => "Invalid OTP"
    case "40416" => "Partner Not Found"
    case "40417" => "Invalid Terminal"
    case "40418" => "Inconsistent Request"
    case "40419" => "Invalid Bill/Virtual Account"
    case "40500" => "Requested Function Is Not Supported"
    case "40501" => "Requested Opearation Is Not Allowed"
    case "40900" => "Conflict"
    case "40901" => "Duplicate partnerReferenceNo"
    case "42900" => "Too Many Requests"
    case "50000" => "General Error"
    case "50001" => "Internal Server Error"
    case "50002" => "External Server Error"
    case "50400" => "Timeout"
    case _ => "General Error"
  }

  /** The inverse of the splice for a code of `n` extra characters: the taxonomy code
      and the service code read back out of a spliced code. */
  function UnspliceServiceCode(snap: string, n: nat): (parts: (string, string))
    requires |snap| == 5 + n
  {
    (snap[..3] + snap[3 + n..], snap[3..3 + n])
  }

  /** Round trip: a five-character code and the service code spliced into it can be
      recovered from the spliced code. */
  lemma UnspliceOfSplice(code: string, serviceCode: string)
    requires |code| == 5
    ensures |SpliceServiceCode(code, serviceCode)| == 5 + |serviceCode|
    ensures UnspliceServiceCode(SpliceServiceCode(code, serviceCode), |serviceCode|) == (code, serviceCode)
  {
    assert code[..3] + code[3..5] == code;
  }

  /** With an empty service code a five-character code is its own service variant,
      and `NewErrorSnap` is `NewError` with the label appended to the message. */
  lemma NewErrorSnapWithoutServiceCode(code: string, labelText: string, fieldName: string)
    requires |code| == 5
    ensures SpliceServiceCode(code, "") == code
    ensures NewErrorSnap(code, labelText, fieldName, "")
         == NewError(code, fieldName).(message := NewError(code, fieldName).message + " " + labelText)
  {
    assert code[..3] + "" + code[3..5] == code;
  }

  /** Every code outside the table reads "General Error". */
  lemma UnknownCodeIsGeneralError(code: string)
    requires code !in KnownCodes
    ensures GetSnapMessage(code) == "General Error"
  {
  }

  /** What `Error()` shows for the two constructors. */
  lemma ErrorTextOfConstructors(code: string, labelText: string, fieldName: string, serviceCode: string)
    ensures ErrorText(NewErrorSnap(code, labelText, fieldName, serviceCode)) == GetSnapMessage(code) + " " + labelText
    ensures ErrorText(NewError(code, fieldName)) == GetSnapMessage(code)
  {
  }

  /** The two validation codes, and the configuration code that is not in the table. */
  lemma ValidationCodeMessages()
    ensures GetSnapMessage("40001") == "Invalid Field Format"
    ensures GetSnapMessage("40002") == "Missing Mandatory Field"
    ensures GetSnapMessage("500000") == "General Error"
  {
  }

  /** The example of the standard's code convention: 40002 for service 25 is 4002502. */
  lemma SpliceExample()
    ensures SpliceServiceCode("40002", "25") == "4002502"
  {
  }
}
