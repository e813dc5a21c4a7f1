/**
  The two record types of the dashboard. The mock API returns the same facts
  under several spellings (snake_case and camelCase), so most fields are
  optional and the code reads them through fallback chains.
 */
module Types {
  import opened Js

  datatype Task = Task(
    id: string,
    title: string,
    description: string,
    completed: Option<bool>,
    is_completed: Option<bool>,
    isCompleted: Option<bool>,
    startDate: Option<string>,
    start_date: Option<string>,
    endDate: Option<string>,
    end_date: Option<string>,
    createdAt: Option<string>,
    created_at: Option<string>,
    assignedUserId: Option<string>,
    user_name: Option<string>,
    userName: Option<string>,
    user_avatar: Option<string>,
    userAvatar: Option<string>,
    // Not declared by the Task interface, but read by the task export.
    priority: Option<string>,
    updatedAt: Option<string>,
    updated_at: Option<string>
  )

  datatype User = User(
    id: string,
    name: Option<string>,
    first_name: Option<string>,
    firstName: Option<string>,
    last_name: Option<string>,
    lastName: Option<string>,
    email: Option<string>,
    avatar: Option<string>
  )
}
