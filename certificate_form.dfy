/**
 * The seven-field form record of the certificate generator and the two operations
 * on it that the component uses: replacing one named field and the all-fields-filled
 * guard of the Generate button.
 */
module CertificateForm {

  /** The names of the seven inputs (the `name` attribute of each input element). */
  datatype Field = Name | Email | CompletionDate | Issuer | Signature | IssueDate | CertificateType

  datatype FormData = FormData(
    name: string,
    email: string,
    completionDate: string,
    issuer: string,
    signature: string,
    issueDate: string,
    certificateType: string)

  /** The initial state: every field empty, the type drop-down on "Select Type". */
  const EmptyForm: FormData := FormData("", "", "", "", "", "", "")

  /** The value of one named field. */
  function Get(f: FormData, k: Field): string {
    match k
    case Name => f.name
    case Email => f.email
    case CompletionDate => f.completionDate
    case Issuer => f.issuer
    case Signature => f.signature
    case IssueDate => f.issueDate
    case CertificateType => f.certificateType
  }

  /** The spread-and-override update `{ ...formData, [name]: value }`. */
  function SetField(f: FormData, k: Field, v: string): (g: FormData)
    ensures Get(g, k) == v
    ensures forall j :: j != k ==> Get(g, j) == Get(f, j)
  {
    match k
    case Name => f.(name := v)
    case Email => f.(email := v)
    case CompletionDate => f.(completionDate := v)
    case Issuer => f.(issuer := v)
    case Signature => f.(signature := v)
    case IssueDate => f.(issueDate := v)
    case CertificateType => f.(certificateType := v)
  }

  /** The guard of the Generate button: no field is the empty string. */
  predicate AllFilled(f: FormData) {
    && f.name != ""
    && f.email != ""
    && f.completionDate != ""
    && f.issuer != ""
    && f.signature != ""
    && f.issueDate != ""
    && f.certificateType != ""
  }

  /** The guard checks every one of the seven fields and nothing else. */
  lemma AllFilledIffEveryField(f: FormData)
    ensures AllFilled(f) <==> forall k :: Get(f, k) != ""
  {
    if !AllFilled(f) {
      if f.name == "" { assert Get(f, Name) == ""; }
      else if f.email == "" { assert Get(f, Email) == ""; }
      else if f.completionDate == "" { assert Get(f, CompletionDate) == ""; }
      else if f.issuer == "" { assert Get(f, Issuer) == ""; }
      else if f.signature == "" { assert Get(f, Signature) == ""; }
      else if f.issueDate == "" { assert Get(f, IssueDate) == ""; }
      else { assert Get(f, CertificateType) == ""; }
    }
  }
}
