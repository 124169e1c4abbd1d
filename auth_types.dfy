/** The user roles of src/types/auth.ts. */
module AuthTypes {
  /** The three roles a signed-in user can have. The router's "no role yet"
      (`null` in src/App.tsx) is `Option<Role>.None`. */
  datatype Role = Learner | Instructor | Admin
}
