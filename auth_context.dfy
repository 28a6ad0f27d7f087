/** The mock authentication context: the `AuthState` record and the four
    operations that overwrite it with fixed credential rules. */
module AuthContext {
  import opened Optional
  import opened UserTypes

  const John := User(
    "1", "John Doe", Some("john@example.com"), None, Student, Some("/assets/profile-1.jpg"),
    ["Software Development", "Data Science"],
    [UserSkill("JavaScript", 4), UserSkill("Python", 3), UserSkill("UI/UX Design", 2)],
    Education("Bachelor", Some("Tech University"), Some("Computer Science"), Some(2024)),
    ["software-engineer", "data-scientist"],
    ["1", "3"])

  const Jane := User(
    "2", "Jane Smith", Some("jane@example.com"), None, Graduate, Some("/assets/profile-2.jpg"),
    ["Marketing", "Business Analysis"],
    [UserSkill("Digital Marketing", 4), UserSkill("Data Analysis", 3), UserSkill("Content Creation", 5)],
    Education("Master", Some("Business School"), Some("Marketing"), Some(2023)),
    ["marketing-specialist", "business-analyst"],
    ["2", "4"])

  const MockUsers: seq<User> := [John, Jane]

  /** The one password and the one code the mock accepts. */
  const MockPassword := "123456"
  const MockOtp := "123456"

  /** The errors `login` and `loginWithPhone` throw. */
  datatype AuthError = InvalidCredentials | InvalidOtp

  datatype Outcome = Done | Failed(error: AuthError)

  /** `Partial<User>` as `register` reads it; absent properties are `None`. */
  datatype PartialUser = PartialUser(
    name: Option<string>,
    email: Option<string>,
    phoneNumber: Option<string>,
    role: Option<UserRole>,
    interests: Option<seq<string>>,
    skills: Option<seq<UserSkill>>,
    education: Option<Education>)

  const InitialState := AuthState(None, false, true)

  /** `mockUsers.find(u => u.email === email)`, as an index. */
  function FindByEmail(users: seq<User>, email: string): (r: Option<nat>)
    ensures r.Some? ==> r.value < |users| && users[r.value].email == Some(email)
    ensures r.Some? ==> forall j :: 0 <= j < r.value ==> users[j].email != Some(email)
    ensures r.None? ==> forall j :: 0 <= j < |users| ==> users[j].email != Some(email)
  {
    if users == [] then None
    else if users[0].email == Some(email) then Some(0)
    else
      match FindByEmail(users[1..], email)
      case Some(i) => Some(i + 1)
      case None => None
  }

  /** The user `login` signs in, if any: the first user with that email, when the password is the mock one. */
  function LoginUser(users: seq<User>, email: string, password: string): (r: Option<User>)
    ensures r.Some? <==> password == MockPassword && exists i :: 0 <= i < |users| && users[i].email == Some(email)
    ensures r.Some? ==> exists i :: 0 <= i < |users| && users[i] == r.value && users[i].email == Some(email) &&
                                 forall j :: 0 <= j < i ==> users[j].email != Some(email)
  {
    match FindByEmail(users, email)
    case Some(i) => if password == MockPassword then Some(users[i]) else None
    case None => None
  }

  /** Only the two mock addresses with the mock password sign in. */
  lemma LoginAcceptsMockUsers(email: string, password: string)
    ensures LoginUser(MockUsers, email, password).Some? <==>
      password == "123456" && (email == "john@example.com" || email == "jane@example.com")
    ensures email == "john@example.com" && password == "123456" ==> LoginUser(MockUsers, email, password) == Some(John)
    ensures email == "jane@example.com" && password == "123456" ==> LoginUser(MockUsers, email, password) == Some(Jane)
  {
    assert MockUsers[0].email == Some("john@example.com");
    assert MockUsers[1].email == Some("jane@example.com");
  }

  /** The user `loginWithPhone` signs in. */
  function PhoneUser(phone: string): (u: User)
    ensures u.id == "phone-user-1" && u.name == "Phone User"
    ensures u.phoneNumber == Some(phone) && u.email.None? && u.profileImage.None?
    ensures u.role == Student
    ensures u.interests == [] && u.skills == [] && u.savedCareers == [] && u.savedQuestions == []
    ensures u.education == Education("Not specified", None, None, None)
  {
    User("phone-user-1", "Phone User", None, Some(phone), Student, None,
      [], [], Education("Not specified", None, None, None), [], [])
  }

  /** The user `register` creates, with `id` standing for the time-based id. */
  function NewUser(data: PartialUser, id: string): (u: User)
    ensures u.id == id
    ensures data.name.None? || data.name == Some("") ==> u.name == "New User"
    ensures data.name.Some? && data.name.value != "" ==> u.name == data.name.value
    ensures u.email == data.email && u.phoneNumber == data.phoneNumber
    ensures u.role == data.role.GetOr(Student)
    ensures u.interests == data.interests.GetOr([]) && u.skills == data.skills.GetOr([])
    ensures u.education == data.education.GetOr(Education("Not specified", None, None, None))
    ensures u.profileImage.None? && u.savedCareers == [] && u.savedQuestions == []
  {
    User(
      id,
      if data.name.Some? && data.name.value != "" then data.name.value else "New User",
      data.email,
      data.phoneNumber,
      data.role.GetOr(Student),
      None,
      data.interests.GetOr([]),
      data.skills.GetOr([]),
      data.education.GetOr(Education("Not specified", None, None, None)),
      [],
      [])
  }

  class AuthProvider {
    var authState: AuthState

    /** No user yet, and loading until the stored session has been looked at. */
    constructor()
      ensures authState == InitialState && authState.Consistent()
    {
      authState := AuthState(None, false, true);
    }

    /** `login`: the state changes only on success; a failure reports the error. */
    method Login(email: string, password: string) returns (outcome: Outcome)
      modifies this
      ensures LoginUser(MockUsers, email, password).Some? ==>
        outcome == Done && authState == AuthState(LoginUser(MockUsers, email, password), true, false)
      ensures LoginUser(MockUsers, email, password).None? ==>
        outcome == Failed(InvalidCredentials) && authState == old(authState)
      ensures old(authState.Consistent()) ==> authState.Consistent()
    {
      var found := FindByEmail(MockUsers, email);
      if found.Some? && password == MockPassword {
        authState := AuthState(Some(MockUsers[found.value]), true, false);
        outcome := Done;
      } else {
        outcome := Failed(InvalidCredentials);
      }
    }

    /** `loginWithPhone`: any phone with the mock code signs in the phone user. */
    method LoginWithPhone(phone: string, otp: string) returns (outcome: Outcome)
      modifies this
      ensures otp == MockOtp ==> outcome == Done && authState == AuthState(Some(PhoneUser(phone)), true, false)
      ensures otp != MockOtp ==> outcome == Failed(InvalidOtp) && authState == old(authState)
      ensures old(authState.Consistent()) ==> authState.Consistent()
    {
      if otp == MockOtp {
        authState := AuthState(Some(PhoneUser(phone)), true, false);
        outcome := Done;
      } else {
        outcome := Failed(InvalidOtp);
      }
    }

    /** `register` always succeeds; the password is not looked at. */
    method Register(userData: PartialUser, password: string, id: string)
      modifies this
      ensures authState == AuthState(Some(NewUser(userData, id)), true, false)
      ensures authState.Consistent()
    {
      authState := AuthState(Some(NewUser(userData, id)), true, false);
    }

    method Logout()
      modifies this
      ensures authState == AuthState(None, false, false)
      ensures authState.Consistent()
    {
      authState := AuthState(None, false, false);
    }
  }
}
