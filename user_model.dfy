/** The user record and the answer of register and login. */
module UserModel {
  import opened Wrappers

  /** Every field but `name` and `email` is optional. */
  datatype User = User(
    id: Option<string>,
    name: string,
    email: string,
    password: Option<string>,
    createdAt: Option<int>,
    lastLogin: Option<int>,
    isActive: Option<bool>)

  /** The fixed messages the service answers with. */
  datatype Message =
    | EmailJaCadastrado
    | RegistroRealizado
    | ErroAoRegistrar
    | CredenciaisInvalidas
    | LoginRealizado
    | ErroAoLogar

  datatype AuthResponse = AuthResponse(user: User, token: string, success: bool, message: Message)
}
