/**
 * What the two public registration components have in common: the nine
 * field values they hold, the `FormData` they submit to `registerUser`,
 * and how the server actions' replies reach them (a resolved value, or a
 * rejected promise carrying an error message).
 */
module Forms {
  import opened Common
  import opened Registration

  /** The nine field states of a registration component. */
  datatype Fields = Fields(
    email: string,
    password: string,
    fullName: string,
    phoneNumber: string,
    facebookUrl: string,
    university: string,
    ctfExperience: string,
    teamPreference: string,
    participationMode: string)

  /** The `FormData` both components build, one entry per field. */
  function FormDataOf(f: Fields): (form: FormData)
    ensures Field(form, "email") == f.email
    ensures Field(form, "password") == f.password
    ensures Field(form, "fullName") == f.fullName
    ensures Field(form, "phoneNumber") == f.phoneNumber
    ensures Field(form, "facebookUrl") == f.facebookUrl
    ensures Field(form, "university") == f.university
    ensures Field(form, "ctfExperience") == f.ctfExperience
    ensures Field(form, "teamPreference") == f.teamPreference
    ensures Field(form, "participationMode") == f.participationMode
  {
    map[
      "email" := f.email,
      "password" := f.password,
      "fullName" := f.fullName,
      "phoneNumber" := f.phoneNumber,
      "facebookUrl" := f.facebookUrl,
      "university" := f.university,
      "ctfExperience" := f.ctfExperience,
      "teamPreference" := f.teamPreference,
      "participationMode" := f.participationMode]
  }

  /** How an awaited `registerUser` call ends on the client. */
  datatype Reply = Resolved(result: RegisterResult) | Rejected(message: string)

  /** How an awaited `checkEmailExists` call ends on the client. */
  datatype CheckReply = Checked(check: EmailCheck) | CheckRejected
}
