/** The broker names the service falls back to when the environment does not set them
    (app/core/config.py). Connection strings and credentials are not part of this model. */
module Settings {

  const TasksExchange: string := "tasks"
  const TasksQueue: string := "tasks_queue"
  const TasksRoutingKey: string := "task_key"
}
