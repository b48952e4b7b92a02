/** UserEndpoint.java: one request per operation on the `/user` resource.
    The username is the natural key of a user and goes into the path. */
module UserEndpoints {
  import opened Wrappers
  import opened Models
  import opened Http

  const UserPath: Template := Append(Empty, Fixed("/user"))
  const UserByUsername: Template := Append(Append(UserPath, Fixed("/")), Placeholder("username"))
  const UserLogin: Template := Append(UserPath, Fixed("/login"))
  const UserLogout: Template := Append(UserPath, Fixed("/logout"))

  /** The path templates, spelled out, and the placeholders each one has. */
  lemma UserTemplates()
    ensures Render(UserPath) == "/user" && Placeholders(UserPath) == []
    ensures Render(UserByUsername) == "/user/{username}" && Placeholders(UserByUsername) == ["username"]
    ensures Render(UserLogin) == "/user/login" && Placeholders(UserLogin) == []
    ensures Render(UserLogout) == "/user/logout" && Placeholders(UserLogout) == []
  {
  }

  datatype UserEndpoint = UserEndpoint(requestSpec: RequestSpec)

  /** `new UserEndpoint()`. */
  function NewUserEndpoint(spec: RequestSpec): (e: UserEndpoint)
    ensures e.requestSpec == spec
  {
    UserEndpoint(spec)
  }

  /** `createUser`. */
  function CreateUser(e: UserEndpoint, user: User): (r: Request)
    ensures r.spec == e.requestSpec && r.verb == Post && Render(r.template) == "/user"
    ensures r.pathParams == [] && r.queryParams == [] && r.formParams == [] && r.headers == []
    ensures r.body == Some(UserBody(user))
    ensures PathParamsBound(r)
  {
    UserTemplates();
    Send(WithBody(Given(e.requestSpec), UserBody(user)), Post, UserPath)
  }

  /** `getUserByUsername`. */
  function GetUserByUsername(e: UserEndpoint, username: string): (r: Request)
    ensures r.spec == e.requestSpec && r.verb == Get && Render(r.template) == "/user/{username}"
    ensures r.pathParams == [Param("username", StringValue(username))]
    ensures r.queryParams == [] && r.formParams == [] && r.headers == [] && r.body.None?
    ensures PathParamsBound(r)
  {
    UserTemplates();
    var r := Send(PathParam(Given(e.requestSpec), "username", StringValue(username)), Get, UserByUsername);
    r
  }

  /** `updateUser`: the user named in the path and the user in the body are
      separate arguments; nothing ties one to the other. */
  function UpdateUser(e: UserEndpoint, username: string, user: User): (r: Request)
    ensures r.spec == e.requestSpec && r.verb == Put && Render(r.template) == "/user/{username}"
    ensures r.pathParams == [Param("username", StringValue(username))]
    ensures r.body == Some(UserBody(user))
    ensures r.queryParams == [] && r.formParams == [] && r.headers == []
    ensures PathParamsBound(r)
  {
    UserTemplates();
    var d := PathParam(Given(e.requestSpec), "username", StringValue(username));
    var r := Send(WithBody(d, UserBody(user)), Put, UserByUsername);
    r
  }

  /** `deleteUser`. */
  function DeleteUser(e: UserEndpoint, username: string): (r: Request)
    ensures r.spec == e.requestSpec && r.verb == Delete && Render(r.template) == "/user/{username}"
    ensures r.pathParams == [Param("username", StringValue(username))]
    ensures r.queryParams == [] && r.formParams == [] && r.headers == [] && r.body.None?
    ensures PathParamsBound(r)
  {
    UserTemplates();
    var r := Send(PathParam(Given(e.requestSpec), "username", StringValue(username)), Delete, UserByUsername);
    r
  }

  /** `loginUser`: exactly the query parameters `username` and `password`, in that order. */
  function LoginUser(e: UserEndpoint, username: string, password: string): (r: Request)
    ensures r.spec == e.requestSpec && r.verb == Get && Render(r.template) == "/user/login"
    ensures r.queryParams == [Param("username", StringValue(username)), Param("password", StringValue(password))]
    ensures r.pathParams == [] && r.formParams == [] && r.headers == [] && r.body.None?
    ensures PathParamsBound(r)
  {
    UserTemplates();
    var d := QueryParam(Given(e.requestSpec), "username", StringValue(username));
    Send(QueryParam(d, "password", StringValue(password)), Get, UserLogin)
  }

  /** `logoutUser`: nothing beyond the specification. */
  function LogoutUser(e: UserEndpoint): (r: Request)
    ensures r.spec == e.requestSpec && r.verb == Get && Render(r.template) == "/user/logout"
    ensures r.pathParams == [] && r.queryParams == [] && r.formParams == [] && r.headers == []
    ensures r.body.None?
    ensures PathParamsBound(r)
  {
    UserTemplates();
    Send(Given(e.requestSpec), Get, UserLogout)
  }

  /** Reading and deleting a user differ only in the verb. */
  lemma DeleteIsGetWithDelete(e: UserEndpoint, username: string)
    ensures DeleteUser(e, username) == GetUserByUsername(e, username).(verb := Delete)
  {
  }

  /** The path of an update depends on the username argument only and its
      body on the user argument only, so the two may name different users. */
  lemma UpdatePathIndependentOfBody(e: UserEndpoint, username: string, u1: User, u2: User)
    ensures UpdateUser(e, username, u1).pathParams == UpdateUser(e, username, u2).pathParams
    ensures UpdateUser(e, username, u1).body.value.user == u1
    ensures UpdateUser(e, username, u1) == UpdateUser(e, username, u2) <==> u1 == u2
  {
  }
}
