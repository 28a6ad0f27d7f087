/** The shapes of the application's user profile and authentication state
    (`User`, `AuthState`), shared by the authentication context and the skill
    analyzer. Optional properties of the TypeScript interfaces become `Option`s. */
module UserTypes {
  import opened Optional

  datatype UserRole = Student | Graduate | Admin

  /** A skill on a user's profile; `level` is nominally 1 to 5, but nothing enforces it. */
  datatype UserSkill = UserSkill(name: string, level: int)

  datatype Education = Education(
    level: string,
    institution: Option<string>,
    field: Option<string>,
    graduationYear: Option<int>)

  datatype User = User(
    id: string,
    name: string,
    email: Option<string>,
    phoneNumber: Option<string>,
    role: UserRole,
    profileImage: Option<string>,
    interests: seq<string>,
    skills: seq<UserSkill>,
    education: Education,
    savedCareers: seq<string>,
    savedQuestions: seq<string>)

  datatype AuthState = AuthState(user: Option<User>, isAuthenticated: bool, isLoading: bool) {
    /** The flag agrees with the presence of a user. */
    predicate Consistent() {
      isAuthenticated <==> user.Some?
    }
  }
}
