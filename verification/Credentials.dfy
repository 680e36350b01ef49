// Every type of secret but certificates
// (pkg/kube/controllers/quarkssecret/generator.go and templated_config.go).
module Credentials {
  import opened Types
  import opened Api
  import opened References
  import opened Products
  import DockerConfig

  method CreatePasswordSecret(client: ApiServer, gen: Generator, config: Config, id: Key, spec: Spec)
    returns (r: Outcome<()>, ghost data: StringMap)
    requires spec.secretType == Password
    modifies client`calls, client`secrets, client`secretWrites, gen
    ensures old(gen.made) <= gen.made
    ensures CreationEnded(r, config, id, spec, client.services, gen.made[|old(gen.made)|..], data,
                          old(client.secrets), client.secrets,
                          CallsWork(client.faults, old(client.calls)) && NeverFails(gen.fails))
    ensures client.calls >= old(client.calls)
  {
    var password := gen.GeneratePassword();
    assert gen.made[|old(gen.made)|..] == [MadePassword(password)];
    var stringData := map["password" := password];
    data := stringData;
    r := CreateSecrets(client, config, id, spec, stringData);
  }

  // RSA and SSH keys.
  method CreateKeySecret(client: ApiServer, gen: Generator, config: Config, id: Key, spec: Spec)
    returns (r: Outcome<()>, ghost data: StringMap)
    requires spec.secretType in {RSAKey, SSHKey}
    modifies client`calls, client`secrets, client`secretWrites, gen
    ensures old(gen.made) <= gen.made
    ensures CreationEnded(r, config, id, spec, client.services, gen.made[|old(gen.made)|..], data,
                          old(client.secrets), client.secrets,
                          CallsWork(client.faults, old(client.calls)) && NeverFails(gen.fails))
    ensures client.calls >= old(client.calls)
  {
    data := map[];
    var keys := gen.GenerateKeys();
    if keys.Failure? {
      return Failure(keys.error), data;
    }
    assert gen.made[|old(gen.made)|..] == [keys.value];
    var stringData := map["private_key" := keys.value.privateKey, "public_key" := keys.value.publicKey];
    if spec.secretType == SSHKey {
      stringData := stringData["public_key_fingerprint" := keys.value.fingerprint];
    }
    data := stringData;
    r := CreateSecrets(client, config, id, spec, stringData);
  }

  // A credential that is given, or generated when it is empty.
  method GivenOrGenerated(gen: Generator, given: string) returns (text: string)
    modifies gen
    ensures GivenOrMade(text, given, gen.made, |old(gen.made)|)
    ensures gen.made == old(gen.made) + (if given == "" then [MadePassword(text)] else [])
  {
    text := given;
    if text == "" {
      text := gen.GeneratePassword();
    }
  }

  method CreateBasicAuthSecret(client: ApiServer, gen: Generator, config: Config, id: Key, spec: Spec)
    returns (r: Outcome<()>, ghost data: StringMap)
    requires spec.secretType == BasicAuth
    modifies client`calls, client`secrets, client`secretWrites, gen
    ensures old(gen.made) <= gen.made
    ensures CreationEnded(r, config, id, spec, client.services, gen.made[|old(gen.made)|..], data,
                          old(client.secrets), client.secrets,
                          CallsWork(client.faults, old(client.calls)) && NeverFails(gen.fails))
    ensures client.calls >= old(client.calls)
  {
    var given := spec.request.basicAuthUsername;
    var username := GivenOrGenerated(gen, given);
    var password := gen.GeneratePassword();
    assert gen.made[|old(gen.made)|..] == (if given == "" then [MadePassword(username)] else []) + [MadePassword(password)];
    var stringData := map["username" := username, "password" := password];
    data := stringData;
    r := CreateSecrets(client, config, id, spec, stringData);
  }

  // The text behind an optional reference.
  method ReadOptional(client: ApiServer, namespace: string, ref: SecretReference) returns (r: Outcome<string>)
    modifies client`calls
    ensures r.Success? ==> AllMet(client.secrets, namespace, OptionalNeed(ref))
                           && r.value == Referenced(client.secrets, namespace, ref)
    ensures r.Failure? && IsSecNotReady(r.error) ==>
              ref.name != "" && SecretMissing(client.secrets, namespace, EntryNeed(ref))
    ensures client.faults(old(client.calls)) == Fine && r.Failure? ==>
              ref.name != "" && !Met(client.secrets, namespace, EntryNeed(ref))
              && (IsSecNotReady(r.error) <==> SecretMissing(client.secrets, namespace, EntryNeed(ref)))
    ensures client.calls >= old(client.calls)
  {
    if ref.name == "" {
      return Success("");
    }
    r := ReadEntry(client, namespace, ref);
  }

  method DockerCredentials(client: ApiServer, gen: Generator, namespace: string, image: ImageCredentialsRequest)
    returns (r: Outcome<(string, string)>)
    modifies client`calls, gen
    ensures old(gen.made) <= gen.made
    ensures r.Success? ==>
              AreCredentials(client.secrets, namespace, image, gen.made[|old(gen.made)|..], r.value.0, r.value.1)
    ensures Classified(r, IsSecNotReady, client.secrets, namespace,
                       OptionalNeed(image.username) + OptionalNeed(image.password),
                       CallsWork(client.faults, old(client.calls)))
    ensures CallsWork(client.faults, old(client.calls)) ==>
              AllMet(client.secrets, namespace, OptionalNeed(image.username) + OptionalNeed(image.password)) ==> r.Success?
    ensures client.calls >= old(client.calls)
  {
    var givenUsername := ReadOptional(client, namespace, image.username);
    if givenUsername.Failure? {
      return Failure(givenUsername.error);
    }
    var username := GivenOrGenerated(gen, givenUsername.value);
    var givenPassword := ReadOptional(client, namespace, image.password);
    if givenPassword.Failure? {
      return Failure(givenPassword.error);
    }
    var password := GivenOrGenerated(gen, givenPassword.value);
    ghost var made := (if givenUsername.value == "" then [MadePassword(username)] else [])
                      + (if givenPassword.value == "" then [MadePassword(password)] else []);
    assert gen.made == old(gen.made) + made;
    assert gen.made[|old(gen.made)|..] == made;
    r := Success((username, password));
  }

  method CreateDockerConfigJSON(client: ApiServer, gen: Generator, config: Config, id: Key, spec: Spec)
    returns (r: Outcome<()>, ghost data: StringMap)
    requires spec.secretType == DockerConfigJSON
    modifies client`calls, client`secrets, client`secretWrites, gen
    ensures old(gen.made) <= gen.made
    ensures CreationEnded(r, config, id, spec, client.services, gen.made[|old(gen.made)|..], data,
                          old(client.secrets), client.secrets,
                          CallsWork(client.faults, old(client.calls)) && NeverFails(gen.fails))
    ensures client.calls >= old(client.calls)
  {
    data := map[];
    var image := spec.request.image;
    var credentials := DockerCredentials(client, gen, id.namespace, image);
    if credentials.Failure? {
      return Failure(credentials.error), data;
    }
    var (username, password) := credentials.value;
    var stringData := map[".dockerconfigjson" := DockerConfig.Print(image.registry, username, password, image.email)];
    data := stringData;
    r := CreateSecrets(client, config, id, spec, stringData);
  }

  method CreateTemplatedConfigSecret(client: ApiServer, gen: Generator, config: Config, id: Key, spec: Spec)
    returns (r: Outcome<()>, ghost data: StringMap)
    requires spec.secretType == TemplatedConfig
    modifies client`calls, client`secrets, client`secretWrites
    ensures CreationEnded(r, config, id, spec, client.services, [], data, old(client.secrets), client.secrets,
                          CallsWork(client.faults, old(client.calls)) && NeverFails(gen.fails))
    ensures client.calls >= old(client.calls)
  {
    data := map[];
    var secretData := RenderSecret(client, id.namespace, spec.request.templated, config.render);
    if secretData.Failure? {
      return Failure(secretData.error), data;
    }
    data := secretData.value;
    r := CreateSecrets(client, config, id, spec, secretData.value);
  }
}
