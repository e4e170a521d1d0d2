/** The closed set of notifications that actors, the gameplay manager and the
    scenes exchange through the world (`EventMessage` in src/ID/EventMessage.h). */
module EventMessages {

  datatype EventMessage =
    | None             // placeholder
    | PlayerDead       // the player has died
    | EnemyDead        // a minor enemy has died
    | BossDead         // the boss enemy has died
    | PlayerDamage     // the player takes damage
    | EnemyDamage      // an enemy takes damage
    | StageClear       // the stage is cleared
    | GameOver         // the game is over
    | HitStop          // hit-stop effect
    | CameraVibration  // camera shake
    | EnemyDestroy     // remove every enemy from the field
}
