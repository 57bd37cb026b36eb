/** The account records of src/types/auth.ts and src/types/user.ts. */
module AccountTypes {

  /** The signup request body. */
  datatype SignupData = SignupData(name: string, email: string, password: string)

  /** The login response body. */
  datatype AuthResponse = AuthResponse(access_token: string, token_type: string)

  datatype UserRole = USER | ADMIN

  /** A user as the server returns it. */
  datatype User = User(id: string, name: string, role: UserRole, email: string, created_at: string)
}
